/** Block windows and the block clock over all runs. */
module Windows {
  import opened Common
  import opened Requests
  import opened Selection
  import opened Machine
  import opened Bounds

  /** The block number after a series of messages. */
  function BlockAfter(block: U64, messages: seq<Message>): U64 {
    if messages == [] then block
    else
      var n := |messages| - 1;
      if messages[n].UpdateBlockNumber? then messages[n].num else BlockAfter(block, messages[..n])
  }

  /** Block updates never go down, and the next block number never overflows. */
  predicate Climbing(block: U64, messages: seq<Message>) {
    if messages == [] then block < U64_MAX
    else
      var n := |messages| - 1;
      && Climbing(block, messages[..n])
      && (messages[n].UpdateBlockNumber? ==> BlockAfter(block, messages[..n]) <= messages[n].num < U64_MAX)
  }

  lemma {:induction false} ClimbingGrows(block: U64, messages: seq<Message>, n: nat)
    requires Climbing(block, messages) && n <= |messages|
    ensures Climbing(block, messages[..n])
    ensures block <= BlockAfter(block, messages[..n]) <= BlockAfter(block, messages) < U64_MAX
    decreases |messages|
  {
    if messages == [] {
    } else if n == |messages| {
      assert messages[..n] == messages;
      ClimbingGrows(block, messages[..n - 1], n - 1);
      assert messages[..n - 1][..n - 1] == messages[..n - 1];
    } else {
      var m := |messages| - 1;
      ClimbingGrows(block, messages[..m], n);
      assert messages[..m][..n] == messages[..n];
    }
  }

  lemma StepHandled(c: Config, s: State, a: Action)
    requires Enabled(c, s, a)
    ensures Step(c, s, a).ledger.handled == s.ledger.handled + (if a.Receive? then [s.mailbox[0]] else [])
    ensures Step(c, s, a).block == if a.Receive? && s.mailbox[0].UpdateBlockNumber? then s.mailbox[0].num else s.block
  {
  }

  /** The current block is the last block update handled. */
  lemma {:induction false} BlockTracksUpdates(c: Config, block: U64, h: seq<Action>)
    requires Legal(c, block, h)
    ensures Run(c, block, h).block == BlockAfter(block, Run(c, block, h).ledger.handled)
    decreases |h|
  {
    if h != [] {
      var n := |h| - 1;
      BlockTracksUpdates(c, block, h[..n]);
      var s := Run(c, block, h[..n]);
      StepHandled(c, s, h[n]);
      if h[n].Receive? {
        assert (s.ledger.handled + [s.mailbox[0]])[..|s.ledger.handled|] == s.ledger.handled;
      }
    }
  }

  lemma {:induction false} HandledOnlyGrow(c: Config, block: U64, h: seq<Action>, j: nat)
    requires Legal(c, block, h) && j <= |h|
    ensures Legal(c, block, h[..j])
    ensures Run(c, block, h[..j]).ledger.handled <= Run(c, block, h).ledger.handled
    decreases |h|
  {
    hide Step, Enabled;
    LegalPrefix(c, block, h, j);
    if j == |h| {
      assert h[..j] == h;
    } else {
      var n := |h| - 1;
      HandledOnlyGrow(c, block, h[..n], j);
      assert h[..n][..j] == h[..j];
      StepHandled(c, Run(c, block, h[..n]), h[n]);
    }
  }

  /** On a climbing run the block number only grows, at every point of the run. */
  lemma BlockClimbs(c: Config, block: U64, h: seq<Action>, j: nat)
    requires Legal(c, block, h) && j <= |h| && Climbing(block, Run(c, block, h).ledger.handled)
    ensures Legal(c, block, h[..j]) && Climbing(block, Run(c, block, h[..j]).ledger.handled)
    ensures block <= Run(c, block, h[..j]).block <= Run(c, block, h).block < U64_MAX
  {
    HandledOnlyGrow(c, block, h, j);
    BlockTracksUpdates(c, block, h);
    BlockTracksUpdates(c, block, h[..j]);
    var late, early := Run(c, block, h).ledger.handled, Run(c, block, h[..j]).ledger.handled;
    assert early == late[..|early|];
    ClimbingGrows(block, late, |early|);
  }

  /** Every start happens inside the block window, on any run: the request's
      first block is below the next block, the next block is not past its last
      one, and the current block has not reached it. */
  lemma StartsInsideWindow(c: Config, block: U64, h: seq<Action>, j: nat)
    requires Legal(c, block, h) && j < |h| && h[j].Launch?
    ensures Legal(c, block, h[..j])
    ensures var s := Run(c, block, h[..j]);
            && h[j].pos < |s.Queued()|
            && var window := s.Queued()[h[j].pos].request.inclusion;
            && s.block < U64_MAX
            && window.block < NextBlock(s.block)
            && (window.maxBlock.Some? ==> NextBlock(s.block) <= window.maxBlock.value)
            && (window.maxBlock.Some? ==> s.block < window.maxBlock.value)
  {
    LegalPrefix(c, block, h, j);
  }

  // ---- The documented window ----

  /** The documented meaning of an inclusion: its blocks, from the first to the last. */
  predicate Covers(window: Inclusion, block: U64) {
    window.block <= block && (window.maxBlock.Some? ==> block <= window.maxBlock.value)
  }

  /** A request that is ready is eligible for the next block exactly when its
      documented window covers that block and does not begin with it. */
  lemma EligibleInsideWindow(r: SimulationRequest, next: U64, now: Instant)
    ensures Judge(r, next, now) == Eligible
       <==> && (r.backedOffUntil.Some? ==> now > r.backedOffUntil.value)
            && Covers(r.request.inclusion, next) && next != r.request.inclusion.block
  {
  }

  /** It is outdated exactly when the next block is past its last one; whether
      its first block is reached does not matter. */
  lemma OutdatedPastWindow(r: SimulationRequest, next: U64, now: Instant)
    ensures Judge(r, next, now) == Outdated
       <==> && (r.backedOffUntil.Some? ==> now > r.backedOffUntil.value)
            && r.request.inclusion.maxBlock.Some? && next > r.request.inclusion.maxBlock.value
  {
  }

  /** Is there a block the window covers other than its first? */
  predicate HasSecondBlock(window: Inclusion) {
    window.block < U64_MAX && (window.maxBlock.Some? ==> window.block < window.maxBlock.value)
  }

  lemma HasSecondBlockMeaning(window: Inclusion)
    ensures HasSecondBlock(window) <==> exists b: U64 :: Covers(window, b) && b != window.block
  {
    if HasSecondBlock(window) {
      var second: U64 := window.block + 1;
      assert Covers(window, second);
    }
  }

  /** A bundle for block 5 alone: its documented window covers block 5, and it
      is eligible for no block. */
  lemma FirstBlockIsMissed(now: Instant)
    ensures var r := NewRequest(SendBundleRequest(0, Inclusion(5, Some(5)), ""), SimBundleOverrides(""), Normal);
            && Covers(r.request.inclusion, 5)
            && Judge(r, 5, now) == Waiting
            && forall next: U64 :: Judge(r, next, now) != Eligible
  {
  }

  /** A bundle whose window ends with its first block, or before it, is never
      started on any run. A start happened by a launch in the history. */
  lemma {:induction false} StartedHasSecondBlock(c: Config, block: U64, h: seq<Action>, job: Job)
    requires Legal(c, block, h) && Run(c, block, h).ledger.starts[job] > 0
    ensures HasSecondBlock(job.0.inclusion)
    ensures exists j: nat :: j < |h| && h[j].Launch? && Legal(c, block, h[..j])
                             && Enabled(c, Run(c, block, h[..j]), h[j])
    decreases |h|
  {
    if h != [] {
      var n := |h| - 1;
      var s := Run(c, block, h[..n]);
      if s.ledger.starts[job] > 0 {
        StartedHasSecondBlock(c, block, h[..n], job);
        var j: nat :| j < n && h[..n][j].Launch? && Legal(c, block, h[..n][..j])
                      && Enabled(c, Run(c, block, h[..n][..j]), h[..n][j]);
        assert h[..n][..j] == h[..j];
      } else {
        StartsOnlyByLaunch(c, s, h[n], job);
      }
    }
  }

  predicate PastWindow(e: SimulationEvent) {
    e.OutdatedRequest? ==>
      && e.request.inclusion.maxBlock.Some?
      && e.nextBlock > e.request.inclusion.maxBlock.value
  }

  /** Every request reported as outdated was past its last block when it was dropped. */
  lemma {:induction false} OutdatedArePastWindow(c: Config, block: U64, h: seq<Action>)
    requires Legal(c, block, h)
    ensures forall e :: e in Run(c, block, h).ledger.events ==> PastWindow(e)
    decreases |h|
  {
    if h != [] {
      var n := |h| - 1;
      OutdatedArePastWindow(c, block, h[..n]);
      var s := Run(c, block, h[..n]);
      match h[n]
      case Drop(pos, now) =>
        var r := s.Queued()[pos];
        assert PastWindow(OutdatedRequest(r.request, r.overrides, NextBlock(s.block)));
      case _ =>
    }
  }

  /** The scheduler only ever starts jobs whose first block has been reached
      and whose last block is past the block the run began with. */
  lemma {:induction false} StartedWithinRun(c: Config, block: U64, h: seq<Action>, job: Job)
    requires Legal(c, block, h) && Climbing(block, Run(c, block, h).ledger.handled)
    requires Run(c, block, h).ledger.starts[job] > 0
    ensures var window := job.0.inclusion;
            && window.block <= Run(c, block, h).block
            && (window.maxBlock.Some? ==> block < window.maxBlock.value)
    decreases |h|
  {
    if h != [] {
      var n := |h| - 1;
      BlockClimbs(c, block, h, n);
      var s := Run(c, block, h[..n]);
      if s.ledger.starts[job] > 0 {
        StartedWithinRun(c, block, h[..n], job);
      } else {
        StartsOnlyByLaunch(c, s, h[n], job);
      }
    }
  }

  lemma StartsOnlyByLaunch(c: Config, s: State, a: Action, job: Job)
    requires Enabled(c, s, a) && s.ledger.starts[job] == 0 < Step(c, s, a).ledger.starts[job]
    ensures a.Launch? && s.Queued()[a.pos].Job() == job
  {
  }

  /** The first block of every request has been reached. */
  predicate AllReached(q: seq<SimulationRequest>, next: U64) {
    forall r :: r in q ==> r.IsMinBlock(next)
  }

  /** The first block of every request that was started before has been reached. */
  predicate RetriedReached(q: seq<SimulationRequest>, next: U64) {
    forall r :: r in q && r.retries > 0 ==> r.IsMinBlock(next)
  }

  predicate NoReturn(s: State) {
    var next := NextBlock(s.block);
    AllReached(s.flying, next) && RetriedReached(s.high, next) && RetriedReached(s.normal, next)
  }

  lemma CompleteKeepsNoReturn(c: Config, s: State, i: nat, outcome: BundleSimulationOutcome)
    requires i < |s.flying| && NoReturn(s)
    ensures NoReturn(Step(c, s, Complete(i, outcome)))
  {
    var sim := s.flying[i];
    assert sim in s.flying;
    assert forall r :: r in Without(s.flying, i) ==> r in s.flying;
    assert sim.IsMinBlock(NextBlock(s.block)) ==> sim.(retries := sim.retries + 1).IsMinBlock(NextBlock(s.block));
  }

  lemma SelectKeepsNoReturn(c: Config, s: State, a: Action)
    requires Enabled(c, s, a) && (a.Drop? || a.Launch?) && NoReturn(s)
    ensures NoReturn(Step(c, s, a))
  {
    var pos := a.pos;
    assert forall r :: r in Unqueue(s, pos).high ==> r in s.high;
    assert forall r :: r in Unqueue(s, pos).normal ==> r in s.normal;
  }

  /** While blocks do not go down, a request that was started once is never
      again waiting for its first block. */
  lemma {:induction false} RetriedNeverWaits(c: Config, block: U64, h: seq<Action>)
    requires Legal(c, block, h) && Climbing(block, Run(c, block, h).ledger.handled)
    ensures NoReturn(Run(c, block, h))
    decreases |h|
  {
    if h != [] {
      var n := |h| - 1;
      BlockClimbs(c, block, h, n);
      RetriedNeverWaits(c, block, h[..n]);
      AlwaysTidy(c, block, h[..n]);
      var s := Run(c, block, h[..n]);
      match h[n]
      case Receive =>
        assert s.mailbox[0] in s.mailbox;
      case Complete(i, outcome) => CompleteKeepsNoReturn(c, s, i, outcome);
      case Drop(_, _) => SelectKeepsNoReturn(c, s, h[n]);
      case Launch(_, _) => SelectKeepsNoReturn(c, s, h[n]);
      case _ =>
    }
  }

  function Updates(messages: seq<Message>): seq<U64> {
    if messages == [] then []
    else
      var n := |messages| - 1;
      Updates(messages[..n]) + (if messages[n].UpdateBlockNumber? then [messages[n].num] else [])
  }

  /** The `old` fields of the block events. */
  function Replaced(events: seq<SimulationEvent>): seq<U64> {
    if events == [] then []
    else
      var n := |events| - 1;
      Replaced(events[..n]) + (if events[n].BlockNumberUpdated? then [events[n].previous] else [])
  }

  /** A sequence with consecutive duplicates removed. */
  function Squeeze(xs: seq<U64>): seq<U64> {
    if |xs| <= 1 then xs
    else
      var n := |xs| - 1;
      if xs[n] == xs[n - 1] then Squeeze(xs[..n]) else Squeeze(xs[..n]) + [xs[n]]
  }

  lemma ReplacedAppend(events: seq<SimulationEvent>, e: SimulationEvent)
    ensures Replaced(events + [e]) == Replaced(events) + (if e.BlockNumberUpdated? then [e.previous] else [])
  {
    assert (events + [e])[..|events|] == events;
  }

  /** The last block reported: the initial one or the last update. */
  function Latest(block: U64, updates: seq<U64>): U64 {
    if updates == [] then block else updates[|updates| - 1]
  }

  predicate TellsHistory(block: U64, current: U64, events: seq<SimulationEvent>, handled: seq<Message>) {
    && Replaced(events) + [current] == Squeeze([block] + Updates(handled))
    && current == Latest(block, Updates(handled))
  }

  lemma UpdatesAppend(messages: seq<Message>, m: Message)
    ensures Updates(messages + [m]) == Updates(messages) + (if m.UpdateBlockNumber? then [m.num] else [])
  {
    assert (messages + [m])[..|messages|] == messages;
  }

  lemma SqueezeAppend(block: U64, updates: seq<U64>, num: U64)
    ensures Squeeze([block] + (updates + [num]))
         == Squeeze([block] + updates) + (if num == Latest(block, updates) then [] else [num])
  {
    var xs := [block] + updates;
    assert [block] + (updates + [num]) == xs + [num];
    assert (xs + [num])[..|xs|] == xs;
    assert xs[|xs| - 1] == Latest(block, updates);
  }

  lemma UpdateTellsHistory(block: U64, current: U64, events: seq<SimulationEvent>, handled: seq<Message>, num: U64)
    requires TellsHistory(block, current, events, handled)
    ensures TellsHistory(block, num,
                         if num == current then events else events + [BlockNumberUpdated(current, current)],
                         handled + [UpdateBlockNumber(num)])
  {
    UpdatesAppend(handled, UpdateBlockNumber(num));
    SqueezeAppend(block, Updates(handled), num);
    ReplacedAppend(events, BlockNumberUpdated(current, current));
  }

  lemma ReceiveEvents(c: Config, s: State)
    requires s.mailbox != []
    ensures var m, t := s.mailbox[0], Step(c, s, Receive);
            t.ledger.events
            == if m.UpdateBlockNumber? && m.num != s.block
               then s.ledger.events + [BlockNumberUpdated(s.block, s.block)] else s.ledger.events
  {
  }

  lemma ReceiveTellsHistory(block: U64, c: Config, s: State)
    requires s.mailbox != [] && TellsHistory(block, s.block, s.ledger.events, s.ledger.handled)
    ensures var t := Step(c, s, Receive); TellsHistory(block, t.block, t.ledger.events, t.ledger.handled)
  {
    var m := s.mailbox[0];
    StepHandled(c, s, Receive);
    ReceiveEvents(c, s);
    if m.UpdateBlockNumber? {
      UpdateTellsHistory(block, s.block, s.ledger.events, s.ledger.handled, m.num);
    } else {
      UpdatesAppend(s.ledger.handled, m);
      assert Updates(s.ledger.handled) + [] == Updates(s.ledger.handled);
    }
  }

  /** Only messages emit block events. */
  lemma QuietEvents(c: Config, s: State, a: Action)
    requires Enabled(c, s, a) && !a.Receive?
    ensures var e := Step(c, s, a).ledger.events;
            Replaced(e) == Replaced(s.ledger.events)
  {
    var events, t := s.ledger.events, Step(c, s, a);
    if |t.ledger.events| > |events| {
      ReplacedAppend(events, t.ledger.events[|events|]);
    }
  }

  lemma QuietTellsHistory(block: U64, c: Config, s: State, a: Action)
    requires Enabled(c, s, a) && !a.Receive? && TellsHistory(block, s.block, s.ledger.events, s.ledger.handled)
    ensures var t := Step(c, s, a); TellsHistory(block, t.block, t.ledger.events, t.ledger.handled)
  {
    hide Step, Replaced, Updates, Squeeze, Latest;
    StepHandled(c, s, a);
    QuietEvents(c, s, a);
    assert s.ledger.handled + [] == s.ledger.handled;
  }

  /** Block history: the `old` fields of all block events, followed by the
      current block, are the initial block and all updates handled with
      consecutive duplicates removed. */
  lemma {:induction false} BlockHistory(c: Config, block: U64, h: seq<Action>)
    requires Legal(c, block, h)
    ensures var s := Run(c, block, h);
            Replaced(s.ledger.events) + [s.block] == Squeeze([block] + Updates(s.ledger.handled))
    ensures TellsHistory(block, Run(c, block, h).block, Run(c, block, h).ledger.events, Run(c, block, h).ledger.handled)
    decreases |h|
  {
    if h != [] {
      var n := |h| - 1;
      BlockHistory(c, block, h[..n]);
      if h[n].Receive? {
        ReceiveTellsHistory(block, c, Run(c, block, h[..n]));
      } else {
        QuietTellsHistory(block, c, Run(c, block, h[..n]), h[n]);
      }
    }
  }

  // ---- The `current` field of block events ----

  predicate StaleCurrent(e: SimulationEvent) {
    e.BlockNumberUpdated? ==> e.current == e.previous
  }

  /** Every block event of every run carries the replaced number as `current`. */
  lemma {:induction false} CurrentIsReplaced(c: Config, block: U64, h: seq<Action>)
    requires Legal(c, block, h)
    ensures forall e :: e in Run(c, block, h).ledger.events ==> StaleCurrent(e)
    decreases |h|
  {
    if h != [] {
      var n := |h| - 1;
      CurrentIsReplaced(c, block, h[..n]);
      var s := Run(c, block, h[..n]);
      if h[n].Receive? {
        ReceiveEvents(c, s);
      } else {
        NoBlockEvent(c, s, h[n]);
      }
    }
  }

  lemma NoBlockEvent(c: Config, s: State, a: Action)
    requires Enabled(c, s, a) && !a.Receive?
    ensures forall e :: e in Step(c, s, a).ledger.events ==> e in s.ledger.events || !e.BlockNumberUpdated?
  {
  }

  /** Handling an update emits no event exactly when the number is the current
      one; otherwise it emits one, whose `current` is not the new number. */
  lemma UpdateReportsOldBlock(c: Config, s: State)
    requires s.mailbox != [] && s.mailbox[0].UpdateBlockNumber?
    ensures var num, events, t := s.mailbox[0].num, s.ledger.events, Step(c, s, Receive);
            && t.block == num
            && (t.ledger.events == events <==> num == s.block)
            && (num != s.block ==>
                  && |t.ledger.events| == |events| + 1 && t.ledger.events[..|events|] == events
                  && var e := t.ledger.events[|events|];
                  && e.BlockNumberUpdated? && e.previous == s.block && e.current == s.block && e.current != t.block)
  {
    ReceiveEvents(c, s);
    StepHandled(c, s, Receive);
  }
}
