/** The service as it is written: two queues it pushes to and removes from, the
    in-flight simulations, the mailbox, and the poll loop over them. Every method
    is proved to perform actions of `Machine`, so every theorem about runs
    speaks about this class. */
module Service {
  import opened Common
  import opened Requests
  import opened Selection
  import opened Machine
  import opened Ledgers
  import opened Bounds
  import opened Accounting
  import opened Windows
  import opened Limits
  import opened Progress
  import opened Effects
  import opened Listening
  import opened Reports
  import opened Fairness
  import opened Rounds
  import opened Polls

  class BundleSimulatorService {
    const config: Config
    var simulations: seq<SimulationRequest>
    var highPriorityQueue: seq<SimulationRequest>
    var normalPriorityQueue: seq<SimulationRequest>
    var fromHandle: seq<Message>
    var currentBlockNumber: U64
    var listeners: seq<Listener>
    var running: bool                // false once the service has been dropped

    ghost const initialBlock: U64
    ghost var history: seq<Action>  // every action so far

    /** The fields hold the state that the history leads to, where a message or
        simulations that are being worked on count as still in place. */
    ghost predicate Agrees(mailbox: seq<Message>, flying: seq<SimulationRequest>)
      reads this
    {
      && Legal(config, initialBlock, history)
      && var s := Run(config, initialBlock, history);
      && s.mailbox == mailbox
      && s.high == highPriorityQueue
      && s.normal == normalPriorityQueue
      && s.flying == flying
      && s.block == currentBlockNumber
      && s.listeners == listeners
    }

    ghost predicate Valid()
      reads this
    {
      Agrees(fromHandle, simulations)
    }

    /** What holds between polls: the history is one of whole rounds, and while
        blocks do not go down, the high queue is within its limit, and so is the
        normal queue if the high limit is zero. */
    ghost predicate Settled()
      reads this
      requires Legal(config, initialBlock, history)
    {
      && AtRest(config, initialBlock, history)
      && (Climbing(initialBlock, View().ledger.handled) ==>
            && |highPriorityQueue| <= config.maxHighPrioQueueLen
            && (config.maxHighPrioQueueLen == 0 ==> |normalPriorityQueue| <= config.maxNormalPrioQueueLen))
    }

    ghost function View(): State
      reads this
      requires Legal(config, initialBlock, history)
    {
      Run(config, initialBlock, history)
    }

    /** Work the service can still do without new messages. */
    ghost function Remaining(): nat
      reads this
      requires Legal(config, initialBlock, history)
    {
      Potential(config, View())
    }

    constructor (currentBlockNumber: U64, config: Config)
      ensures Valid() && Settled() && running
      ensures View() == Initial(currentBlockNumber)
      ensures this.config == config && initialBlock == currentBlockNumber && history == []
    {
      this.config := config;
      simulations, highPriorityQueue, normalPriorityQueue := [], [], [];
      fromHandle, listeners, running := [], [], true;
      this.currentBlockNumber := currentBlockNumber;
      initialBlock := currentBlockNumber;
      history := [];
    }

    /** What a handle's `send` does to the service's end of the channel; it fails
        exactly when the service is gone. */
    method Send(message: Message) returns (sent: Result<(), AddSimulationErr>)
      requires Valid() && Settled() && FromHandle(message)
      modifies this`fromHandle, this`history
      ensures Valid() && Settled()
      ensures match sent
              case Ok(_) =>
                && running
                && fromHandle == old(fromHandle) + [message]
                && history == old(history) + [Action.Send(message)]
              case Err(e) =>
                && !running && e == ServiceUnavailable
                && fromHandle == old(fromHandle) && history == old(history)
    {
      if !running {
        return Err(ServiceUnavailable);
      }
      fromHandle := fromHandle + [message];
      OthersKeepRest(config, initialBlock, history, Action.Send(message));
      history := history + [Action.Send(message)];
      sent := Ok(());
    }

    /** The service is dropped. `unanswered` are the messages it never handled:
        all that were sent, behind those it did handle. Their senders, if they
        wait for an answer, are told that the service is unavailable. */
    method Shutdown() returns (unanswered: seq<Message>)
      requires Valid() && Settled() && running
      modifies this`running
      ensures Valid() && Settled() && !running
      ensures Sent(history) == View().ledger.handled + unanswered
    {
      MailboxFifo(config, initialBlock, history);
      running, unanswered := false, fromHandle;
    }

    /** A listener's receiver is dropped. */
    method HangUp(k: nat)
      requires Valid() && Settled() && k < |listeners|
      modifies this`listeners, this`history
      ensures Valid() && Settled()
      ensures listeners == old(listeners)[k := old(listeners[k]).(open := false)]
      ensures history == old(history) + [Action.HangUp(k)]
    {
      listeners := listeners[k := listeners[k].(open := false)];
      OthersKeepRest(config, initialBlock, history, Action.HangUp(k));
      history := history + [Action.HangUp(k)];
    }

    /** Sends the event to every listener and keeps those whose receiver still exists. */
    method NotifyListeners(event: SimulationEvent)
      modifies this`listeners
      ensures listeners == Notified(old(listeners), event)
    {
      hide Notified;
      var kept := [];
      var i := 0;
      NotifiedNothing(event);
      while i < |listeners|
        invariant 0 <= i <= |listeners|
        invariant listeners == old(listeners)
        invariant kept == Notified(listeners[..i], event)
      {
        assert listeners[..i + 1] == listeners[..i] + [listeners[i]];
        NotifiedAppend(listeners[..i], listeners[i], event);
        if listeners[i].open {
          kept := kept + [listeners[i].(received := listeners[i].received + [event])];
        }
        i := i + 1;
      }
      assert listeners[..i] == listeners;
      listeners := kept;
    }

    predicate HasHighPriorityCapacity()
      reads this
    {
      |highPriorityQueue| < config.maxHighPrioQueueLen
    }

    predicate HasNormalPriorityCapacity()
      reads this
    {
      |normalPriorityQueue| < config.maxNormalPrioQueueLen
    }

    /** Processes one message; `reply` is what goes back on the message's own channel. */
    method OnMessage(msg: Message) returns (reply: Option<Result<(), AddSimulationErr>>)
      requires Agrees([msg] + fromHandle, simulations)
      modifies this`highPriorityQueue, this`normalPriorityQueue, this`currentBlockNumber, this`listeners, this`history
      ensures Valid()
      ensures history == old(history) + [Receive]
      ensures View() == Step(config, old(View()), Receive)
      ensures match reply
              case None =>
                && !msg.AddSimulation?
                && View().ledger.accepted == old(View()).ledger.accepted
                && View().ledger.rejected == old(View()).ledger.rejected
              case Some(Ok(_)) =>
                && msg.AddSimulation?
                && View().ledger.accepted == old(View()).ledger.accepted + [msg.request]
              case Some(Err(e)) =>
                && msg.AddSimulation? && e == QueueFull
                && View().ledger.rejected == old(View()).ledger.rejected + [msg.request]
      ensures msg.AddSimulation? ==>
                (reply == Some(Ok(())) <==>
                 if msg.request.priority.High? then old(|highPriorityQueue|) < config.maxHighPrioQueueLen
                 else old(|normalPriorityQueue|) < config.maxNormalPrioQueueLen)
      ensures View().ledger.handled == old(View()).ledger.handled + [msg]
      ensures highPriorityQueue ==
              if msg.ClearQueue? then []
              else if reply == Some(Ok(())) && msg.request.priority.High? then old(highPriorityQueue) + [msg.request]
              else old(highPriorityQueue)
      ensures normalPriorityQueue ==
              if msg.ClearQueue? then []
              else if reply == Some(Ok(())) && msg.request.priority.Normal? then old(normalPriorityQueue) + [msg.request]
              else old(normalPriorityQueue)
      ensures currentBlockNumber == if msg.UpdateBlockNumber? then msg.num else old(currentBlockNumber)
      ensures msg.AddEventListener? ==> listeners == old(listeners) + [Listener(msg.listener, true, [])]
      ensures View().ledger.events
           == old(View()).ledger.events
              + if msg.UpdateBlockNumber? && msg.num != old(currentBlockNumber)
                then [BlockNumberUpdated(old(currentBlockNumber), old(currentBlockNumber))] else []
      ensures Remaining() < old(Remaining())
      ensures old(|highPriorityQueue|) <= config.maxHighPrioQueueLen ==>
                |highPriorityQueue| <= config.maxHighPrioQueueLen
    {
      hide Potential, Legal, Notified, Tidy, Settle, Unqueue, Run;
      reply := None;
      match msg {
        case UpdateBlockNumber(num) =>
          var current := currentBlockNumber;
          if num != current {
            currentBlockNumber := num;
            NotifyListeners(BlockNumberUpdated(current, current));
          }
        case ClearQueue =>
          highPriorityQueue := [];
          normalPriorityQueue := [];
        case AddEventListener(id) =>
          listeners := listeners + [Listener(id, true, [])];
        case AddSimulation(request) =>
          if request.priority.High? {
            if HasHighPriorityCapacity() {
              highPriorityQueue := highPriorityQueue + [request];
              reply := Some(Ok(()));
            } else {
              reply := Some(Err(QueueFull));
            }
          } else if HasNormalPriorityCapacity() {
            normalPriorityQueue := normalPriorityQueue + [request];
            reply := Some(Ok(()));
          } else {
            reply := Some(Err(QueueFull));
          }
      }
      ghost var s := Run(config, initialBlock, history);
      assert s.mailbox[0] == msg && s.mailbox[1..] == fromHandle;
      AlwaysTidy(config, initialBlock, history);
      WorkLowersPotential(config, s, Receive);
      RunAppend(config, initialBlock, history, Receive);
      history := history + [Receive];
    }

    /** Processes a finished simulation, the `i`-th of those in flight. */
    method OnSimulationOutcome(outcome: BundleSimulationOutcome, sim: SimulationRequest, ghost i: nat)
      requires i <= |simulations| && Agrees(fromHandle, simulations[..i] + [sim] + simulations[i..])
      modifies this`highPriorityQueue, this`normalPriorityQueue, this`listeners, this`history
      ensures Valid()
      ensures history == old(history) + [Complete(i, outcome)]
      ensures View() == Step(config, old(View()), Complete(i, outcome))
      ensures var again, before := sim.(retries := sim.retries + 1), old(View()).ledger.events;
              match outcome
              case Success(response) =>
                && View().ledger.events
                   == before + [Simulated(Ok(SimulatedBundle(sim.request, sim.overrides, response, sim.retries)))]
                && highPriorityQueue == old(highPriorityQueue) && normalPriorityQueue == old(normalPriorityQueue)
              case Fatal(error) =>
                && View().ledger.events == before + [Simulated(Err(SimulatedBundleError(error, sim)))]
                && highPriorityQueue == old(highPriorityQueue) && normalPriorityQueue == old(normalPriorityQueue)
              case Reschedule(_) =>
                if sim.retries >= config.maxRetries then
                  && View().ledger.events == before + [ExceededMaxRetries(sim.request, sim.overrides)]
                  && highPriorityQueue == old(highPriorityQueue) && normalPriorityQueue == old(normalPriorityQueue)
                else
                  && View().ledger.events == before
                  && highPriorityQueue == old(highPriorityQueue) + (if sim.priority.High? then [again] else [])
                  && normalPriorityQueue == old(normalPriorityQueue) + (if sim.priority.Normal? then [again] else [])
      ensures Remaining() < old(Remaining())
    {
      hide Potential, Legal, Notified, Tidy, Deliver, Unqueue, Run;
      match outcome {
        case Success(response) =>
          NotifyListeners(Simulated(Ok(SimulatedBundle(sim.request, sim.overrides, response, sim.retries))));
        case Fatal(error) =>
          NotifyListeners(Simulated(Err(SimulatedBundleError(error, sim))));
        case Reschedule(_) =>
          var again := sim.(retries := sim.retries + 1);
          if again.retries > config.maxRetries {
            NotifyListeners(ExceededMaxRetries(again.request, again.overrides));
          } else if again.priority.High? {
            highPriorityQueue := highPriorityQueue + [again];
          } else {
            normalPriorityQueue := normalPriorityQueue + [again];
          }
      }
      ghost var s := Run(config, initialBlock, history);
      assert s.flying[i] == sim && Without(s.flying, i) == simulations;
      AlwaysTidy(config, initialBlock, history);
      WorkLowersPotential(config, s, Complete(i, outcome));
      RunAppend(config, initialBlock, history, Complete(i, outcome));
      history := history + [Complete(i, outcome)];
    }

    /** The position of the first request, over both queues in a row, that is
        eligible or outdated, and which of the two it is. */
    method FindPosition(nextBlock: U64, now: Instant) returns (pos: Option<nat>, outdated: bool)
      ensures match pos
              case None => AllWait(highPriorityQueue + normalPriorityQueue, nextBlock, now)
              case Some(p) =>
                && IsFirstActive(highPriorityQueue + normalPriorityQueue, p, nextBlock, now)
                && (outdated <==> Judge((highPriorityQueue + normalPriorityQueue)[p], nextBlock, now) == Outdated)
    {
      var queued := highPriorityQueue + normalPriorityQueue;
      outdated := false;
      var p := 0;
      while p < |queued|
        invariant p <= |queued|
        invariant !outdated
        invariant forall k :: 0 <= k < p ==> Judge(queued[k], nextBlock, now) == Waiting
      {
        var req := queued[p];
        if req.IsReadyAt(now) {
          if req.ExceedsTargetBlock(nextBlock) {
            return Some(p), true;
          }
          if req.IsMinBlock(nextBlock) {
            return Some(p), false;
          }
        }
        p := p + 1;
      }
      pos := None;
    }

    /** Removes the request at `pos` of both queues in a row. */
    method RemoveAt(pos: nat) returns (item: SimulationRequest)
      requires pos < |highPriorityQueue| + |normalPriorityQueue|
      modifies this`highPriorityQueue, this`normalPriorityQueue
      ensures item == old(highPriorityQueue + normalPriorityQueue)[pos]
      ensures highPriorityQueue == HighWithout(old(highPriorityQueue), pos)
      ensures normalPriorityQueue == NormalWithout(old(highPriorityQueue), old(normalPriorityQueue), pos)
    {
      if pos < |highPriorityQueue| {
        item := highPriorityQueue[pos];
        highPriorityQueue := highPriorityQueue[..pos] + highPriorityQueue[pos + 1..];
      } else {
        var p := pos - |highPriorityQueue|;
        item := normalPriorityQueue[p];
        normalPriorityQueue := normalPriorityQueue[..p] + normalPriorityQueue[p + 1..];
      }
    }

    /** Removes the first active request, at `pos`, and reports it if it is outdated. */
    method TakeOut(pos: nat, outdated: bool, nextBlock: U64, now: Instant, ghost launched: seq<SimulationRequest>)
      returns (item: SimulationRequest)
      requires Agrees(fromHandle, simulations + launched)
      requires nextBlock == NextBlock(currentBlockNumber)
      requires |simulations| + |launched| < config.maxConcurrentSimulations
      requires IsFirstActive(highPriorityQueue + normalPriorityQueue, pos, nextBlock, now)
      requires outdated <==> Judge((highPriorityQueue + normalPriorityQueue)[pos], nextBlock, now) == Outdated
      modifies this`highPriorityQueue, this`normalPriorityQueue, this`listeners, this`history
      ensures item == old(highPriorityQueue + normalPriorityQueue)[pos]
      ensures highPriorityQueue == HighWithout(old(highPriorityQueue), pos)
      ensures normalPriorityQueue == NormalWithout(old(highPriorityQueue), old(normalPriorityQueue), pos)
      ensures Agrees(fromHandle, simulations + launched + (if outdated then [] else [item]))
      ensures history == old(history) + [if outdated then Drop(pos, now) else Launch(pos, now)]
      ensures Remaining() < old(Remaining())
      ensures View().ledger.handled == old(View()).ledger.handled
      ensures View().ledger.events == old(View()).ledger.events + Notices(if outdated then [item] else [], nextBlock)
      ensures outdated ==>
                View().ledger.events
                == old(View()).ledger.events + [OutdatedRequest(item.request, item.overrides, nextBlock)]
    {
      hide Potential, Legal;
      ghost var a := if outdated then Drop(pos, now) else Launch(pos, now);
      AlwaysTidy(config, initialBlock, history);
      WorkLowersPotential(config, View(), a);
      RunAppend(config, initialBlock, history, a);
      item := RemoveAt(pos);
      if outdated {
        NotifyListeners(OutdatedRequest(item.request, item.overrides, nextBlock));
      }
      history := history + [a];
    }

    /** The next request to start, or none; outdated ones in front of it are
        dropped on the way. `launched` are the ones already taken out for
        starting, `capacity` how many more may be. */
    method PopNextReady(nextBlock: U64, now: Instant, ghost launched: seq<SimulationRequest>, ghost capacity: nat)
      returns (item: Option<SimulationRequest>, ghost dropped: seq<SimulationRequest>)
      requires Agrees(fromHandle, simulations + launched)
      requires nextBlock == NextBlock(currentBlockNumber)
      requires capacity > 0 && |simulations| + |launched| + capacity <= config.maxConcurrentSimulations
      requires MaySelect(config, initialBlock, history, now)
      modifies this`highPriorityQueue, this`normalPriorityQueue, this`listeners, this`history
      ensures Agrees(fromHandle, simulations + launched + (if item.Some? then [item.value] else []))
      ensures old(history) <= history && |history| - |old(history)| <= old(Remaining()) - Remaining()
      ensures MaySelect(config, initialBlock, history, now)
      ensures OnlySelects(old(history), history, now) && (item.Some? <==> Started(old(history), history))
      ensures item == None ==> AllWait(highPriorityQueue + normalPriorityQueue, nextBlock, now)
      ensures View().ledger.handled == old(View()).ledger.handled
      ensures View().ledger.events == old(View()).ledger.events + Notices(dropped, nextBlock)
      ensures var whole := Select(old(highPriorityQueue), old(normalPriorityQueue), capacity, nextBlock, now);
              if item.Some? then
                Continues(whole, [item.value], dropped,
                          Select(highPriorityQueue, normalPriorityQueue, capacity - 1, nextBlock, now))
              else
                whole == Selected([], dropped, highPriorityQueue, normalPriorityQueue)
    {
      hide Run, Potential, Select, Sweep, Legal, MaySelect, Judge, OnlySelects, Started, Continues, Notices, Step,
           AllWait, HighWithout, NormalWithout;
      dropped := [];
      NothingSelected(history, now);
      ghost var whole := Select(highPriorityQueue, normalPriorityQueue, capacity, nextBlock, now);
      ContinuesStart(whole);
      NoNotices(View().ledger.events, nextBlock);
      while true
        invariant Agrees(fromHandle, simulations + launched)
        invariant old(history) <= history && |history| - |old(history)| <= old(Remaining()) - Remaining()
        invariant View().ledger.handled == old(View()).ledger.handled
        invariant View().ledger.events == old(View()).ledger.events + Notices(dropped, nextBlock)
        invariant MaySelect(config, initialBlock, history, now)
        invariant OnlySelects(old(history), history, now) && !Started(old(history), history)
        invariant Continues(whole, [], dropped,
                            Select(highPriorityQueue, normalPriorityQueue, capacity, nextBlock, now))
        decreases Remaining()
      {
        ghost var left := Select(highPriorityQueue, normalPriorityQueue, capacity, nextBlock, now);
        var pos, outdated := FindPosition(nextBlock, now);
        if pos == None {
          SelectAllWait(highPriorityQueue, normalPriorityQueue, capacity, nextBlock, now);
          ContinuesEnd(whole, [], dropped, highPriorityQueue, normalPriorityQueue);
          return None, dropped;
        }
        SelectRestart(highPriorityQueue, normalPriorityQueue, capacity, nextBlock, now, pos.value);
        ghost var before, action := history, if outdated then Drop(pos.value, now) else Launch(pos.value, now);
        var removed := TakeOut(pos.value, outdated, nextBlock, now, launched);
        SelectionGoesOn(config, initialBlock, before, action, now);
        OnlySelectsOne(before, action, now);
        OnlySelectsMore(old(history), before, history, now);
        if outdated {
          ContinueDropping(whole, [], dropped, left, removed,
                           Select(highPriorityQueue, normalPriorityQueue, capacity, nextBlock, now));
          NoticesConcat(dropped, [removed], nextBlock);
          dropped := dropped + [removed];
        } else {
          ContinueTaking(whole, [], dropped, left, removed,
                         Select(highPriorityQueue, normalPriorityQueue, capacity - 1, nextBlock, now));
          assert [] + [removed] == [removed];
          return Some(removed), dropped;
        }
      }
    }

    /** The requests to start now: a batch of at most the free capacity. The
        repeated restarts of the search amount to one sweep over both queues. */
    method PopBestRequests(now: Instant) returns (requests: seq<SimulationRequest>)
      requires Valid() && MaySelect(config, initialBlock, history, now)
      modifies this`highPriorityQueue, this`normalPriorityQueue, this`listeners, this`history
      ensures Agrees(fromHandle, simulations + requests)
      ensures |simulations| + |requests| <= config.maxConcurrentSimulations
      ensures MaySelect(config, initialBlock, history, now) && Finished(config, View(), now)
      ensures old(history) <= history && |history| - |old(history)| <= old(Remaining()) - Remaining()
      ensures OnlySelects(old(history), history, now) && (requests != [] <==> Started(old(history), history))
      ensures View().ledger.handled == old(View()).ledger.handled
      ensures var next := NextBlock(currentBlockNumber);
              var sel := Select(old(highPriorityQueue), old(normalPriorityQueue),
                                config.maxConcurrentSimulations - |simulations|, next, now);
              && requests == sel.taken
              && highPriorityQueue == sel.high
              && normalPriorityQueue == sel.normal
              && View().ledger.events == old(View()).ledger.events + Notices(sel.dropped, next)
    {
      hide Run, Potential, Select, Sweep, Legal, Continues, Notices, Step, MaySelect, AllWait, OnlySelects, Started;
      CapacityIsLeft();
      NothingSelected(history, now);
      requests := [];
      assert simulations + requests == simulations;
      var capacity := if |simulations| <= config.maxConcurrentSimulations
                      then config.maxConcurrentSimulations - |simulations| else 0;
      if capacity == 0 {
        SelectZero(highPriorityQueue, normalPriorityQueue, NextBlock(currentBlockNumber), now);
        NoNotices(View().ledger.events, NextBlock(currentBlockNumber));
        return;
      }
      var currentBlock := currentBlockNumber;
      var nextBlock := NextBlock(currentBlock);
      ghost var dropped, done := [], false;
      ghost var whole := Select(highPriorityQueue, normalPriorityQueue, capacity, nextBlock, now);
      ghost var left := whole;
      ContinuesStart(whole);
      NoNotices(View().ledger.events, nextBlock);
      while |requests| != capacity
        invariant |requests| <= capacity && !done
        invariant MaySelect(config, initialBlock, history, now)
        invariant Agrees(fromHandle, simulations + requests)
        invariant Legal(config, initialBlock, history)
        invariant old(history) <= history && |history| - |old(history)| <= old(Remaining()) - Remaining()
        invariant OnlySelects(old(history), history, now) && (requests != [] <==> Started(old(history), history))
        invariant View().ledger.handled == old(View()).ledger.handled
        invariant View().ledger.events == old(View()).ledger.events + Notices(dropped, nextBlock)
        invariant left == Select(highPriorityQueue, normalPriorityQueue, capacity - |requests|, nextBlock, now)
        invariant Continues(whole, requests, dropped, left)
      {
        ghost var before := history;
        var req, alsoDropped := PopNextReady(nextBlock, now, requests, capacity - |requests|);
        OnlySelectsMore(old(history), before, history, now);
        NoticesConcat(dropped, alsoDropped, nextBlock);
        if req == None {
          assert simulations + requests + [] == simulations + requests;
          ContinuesStart(Selected([], [], highPriorityQueue, normalPriorityQueue));
          ContinuesAgain(whole, requests, dropped, left, [], alsoDropped,
                         Selected([], [], highPriorityQueue, normalPriorityQueue));
          assert requests + [] == requests;
          dropped := dropped + alsoDropped;
          left := Selected([], [], highPriorityQueue, normalPriorityQueue);
          done := true;
          break;
        }
        ghost var after := Select(highPriorityQueue, normalPriorityQueue, capacity - |requests| - 1, nextBlock, now);
        ContinuesAgain(whole, requests, dropped, left, [req.value], alsoDropped, after);
        assert simulations + requests + [req.value] == simulations + (requests + [req.value]);
        requests, dropped, left := requests + [req.value], dropped + alsoDropped, after;
      }
      if !done {
        SelectZero(highPriorityQueue, normalPriorityQueue, nextBlock, now);
      }
      ContinuesEnd(whole, requests, dropped, highPriorityQueue, normalPriorityQueue);
    }

    lemma CapacityIsLeft()
      requires Valid()
      ensures |simulations| <= config.maxConcurrentSimulations
    {
      AlwaysFits(config, initialBlock, history);
    }

    /** The theorems about runs, told about the fields: where requests are and
        how often they were started. */
    lemma HoldsAlways(job: Job)
      requires Valid()
      ensures |simulations| <= config.maxConcurrentSimulations
      ensures |highPriorityQueue| + Sum(simulations, AtPriority(High))
              <= config.maxHighPrioQueueLen + config.maxConcurrentSimulations
      ensures |normalPriorityQueue| + Sum(simulations, AtPriority(Normal))
              <= config.maxNormalPrioQueueLen + config.maxConcurrentSimulations
      ensures Count(View().ledger.accepted, job)
              == Count(highPriorityQueue, job) + Count(normalPriorityQueue, job) + Count(simulations, job)
                 + Count(View().ledger.cleared, job) + Closed(View().ledger.events, job)
      ensures currentBlockNumber == BlockAfter(initialBlock, View().ledger.handled)
      ensures Replaced(View().ledger.events) + [currentBlockNumber]
              == Squeeze([initialBlock] + Updates(View().ledger.handled))
      ensures forall l :: l in listeners ==> UpToDate(l, View().ledger.events)
      ensures Work(history) + Remaining() <= (2 * config.maxRetries + 3) * |Sent(history)|
      ensures Sent(history) == View().ledger.handled + fromHandle
      ensures Answered(View().ledger, job)
      ensures NoTwins(View()) ==> Accounted(config, View())
    {
      hide Run, Potential, Sum, Replaced, Squeeze, Updates, Accounted, NoTwins, Answered, Legal;
      AlwaysFits(config, initialBlock, history);
      Conservation(config, initialBlock, history, job);
      BlockTracksUpdates(config, initialBlock, history);
      BlockHistory(config, initialBlock, history);
      ListenersAgree(config, initialBlock, history);
      WorkIsBounded(config, initialBlock, history);
      MailboxFifo(config, initialBlock, history);
      AnsweredOnce(config, initialBlock, history, job);
      if NoTwins(View()) {
        RetryAccounting(config, initialBlock, history);
      }
    }

    /** The same for windows, order and the contents of events. */
    lemma HoldsOfWindows(job: Job)
      requires Valid()
      ensures forall e :: e in View().ledger.events ==> PastWindow(e) && StaleCurrent(e)
      ensures View().ledger.starts[job] > 0 ==> HasSecondBlock(job.0.inclusion)
      ensures Subsequence(Fresh(highPriorityQueue), View().ledger.accepted)
      ensures Subsequence(Fresh(normalPriorityQueue), View().ledger.accepted)
      ensures Climbing(initialBlock, View().ledger.handled) ==>
                var next := NextBlock(currentBlockNumber);
                && AllReached(simulations, next)
                && RetriedReached(highPriorityQueue, next) && RetriedReached(normalPriorityQueue, next)
      ensures NoTwins(View()) ==> forall l :: l in listeners ==> Sum(Results(l.received), ResultFor(job)) <= 1
      ensures View().ledger.events == ToldBy(config, initialBlock, history)
      ensures Results(View().ledger.events) == Outcomes(config, initialBlock, history)
    {
      hide Run, Legal, Subsequence, Fresh, AllReached, RetriedReached, NoTwins, Results, Sum, ToldBy, Outcomes;
      EventsAreTold(config, initialBlock, history);
      ResultsAreOutcomes(config, initialBlock, history);
      OutdatedArePastWindow(config, initialBlock, history);
      CurrentIsReplaced(config, initialBlock, history);
      if View().ledger.starts[job] > 0 {
        StartedHasSecondBlock(config, initialBlock, history, job);
      }
      ArrivalOrder(config, initialBlock, history, High);
      ArrivalOrder(config, initialBlock, history, Normal);
      if Climbing(initialBlock, View().ledger.handled) {
        RetriedNeverWaits(config, initialBlock, history);
      }
      if NoTwins(View()) {
        forall l | l in listeners
          ensures Sum(Results(l.received), ResultFor(job)) <= 1
        {
          AtMostOneResult(config, initialBlock, history, l, job);
        }
      }
    }

    /** One `poll_recv` on a channel that still hands over `ready` messages: the
        oldest message, or `None` for pending. */
    method PollRecv(ready: nat) returns (msg: Option<Message>)
      requires Valid()
      modifies this`fromHandle
      ensures msg == None <==> ready == 0 || old(fromHandle) == []
      ensures match msg
              case None => fromHandle == old(fromHandle) && Valid()
              case Some(m) => old(fromHandle) == [m] + fromHandle && Agrees([m] + fromHandle, simulations)
    {
      if ready == 0 || fromHandle == [] {
        return None;
      }
      msg := Some(fromHandle[0]);
      fromHandle := fromHandle[1..];
      assert [msg.value] + fromHandle == old(fromHandle);
    }

    /** Handles the messages that the channel hands over, of which there are
        `ready` if as many have arrived: exactly those, oldest first. */
    method DrainMessages(ready: nat)
      requires Valid() && AtRest(config, initialBlock, history)
      modifies this`fromHandle, this`highPriorityQueue, this`normalPriorityQueue,
               this`currentBlockNumber, this`listeners, this`history
      ensures Valid() && AtRest(config, initialBlock, history)
      ensures var n := Min(ready, |old(fromHandle)|);
              && fromHandle == old(fromHandle)[n..]
              && View().ledger.handled == old(View()).ledger.handled + old(fromHandle)[..n]
              && history == old(history) + Receives(n)
      ensures old(history) <= history && |history| - |old(history)| <= old(Remaining()) - Remaining()
      ensures old(|highPriorityQueue|) <= config.maxHighPrioQueueLen ==>
                |highPriorityQueue| <= config.maxHighPrioQueueLen
    {
      hide Run, Potential, Step, Deliver, Legal, AtRest, Receives;
      ghost var arrived := fromHandle;
      var n := 0;
      NoReceives(history);
      while true
        invariant Valid() && AtRest(config, initialBlock, history)
        invariant n <= ready && n <= |arrived| && fromHandle == arrived[n..]
        invariant View().ledger.handled == old(View()).ledger.handled + arrived[..n]
        invariant history == old(history) + Receives(n)
        invariant |history| - |old(history)| <= old(Remaining()) - Remaining()
        invariant old(|highPriorityQueue|) <= config.maxHighPrioQueueLen ==>
                    |highPriorityQueue| <= config.maxHighPrioQueueLen
        decreases Remaining()
      {
        var msg := PollRecv(ready - n);
        if msg == None {
          break;
        }
        ReceiveKeepsRest(config, initialBlock, history);
        ReceivesNext(old(history), n);
        var reply := OnMessage(msg.value);
        assert arrived[..n + 1] == arrived[..n] + [msg.value];
        n := n + 1;
      }
    }

    /** One `poll_next` of the in-flight simulations, when `finished` are those
        still handed over: the first of them, or `None` when none is ready. */
    method PollNextSimulation(finished: seq<Finish>)
      returns (done: Option<(BundleSimulationOutcome, SimulationRequest)>)
      requires Valid()
      modifies this`simulations
      ensures done == None <==> finished == [] || finished[0].k >= |old(simulations)|
      ensures match done
              case None => simulations == old(simulations) && Valid()
              case Some((outcome, sim)) =>
                var k := finished[0].k;
                && outcome == finished[0].outcome && sim == old(simulations)[k]
                && k <= |simulations| && |simulations| == |old(simulations)| - 1
                && simulations == Without(old(simulations), k)
                && Agrees(fromHandle, simulations[..k] + [sim] + simulations[k..])
    {
      if finished == [] || finished[0].k >= |simulations| {
        return None;
      }
      var k := finished[0].k;
      done := Some((finished[0].outcome, simulations[k]));
      simulations := simulations[..k] + simulations[k + 1..];
      assert simulations[..k] + [done.value.1] + simulations[k..] == old(simulations);
    }

    /** Handles the simulations that have finished: exactly those handed over,
        in that order. `returned` counts the high-priority requests put back
        into the queue without a capacity check. */
    method DrainCompletions(finished: seq<Finish>) returns (ghost returned: nat)
      requires Valid() && Open(config, initialBlock, history)
      modifies this`simulations, this`highPriorityQueue, this`normalPriorityQueue, this`listeners, this`history
      ensures Valid() && Open(config, initialBlock, history)
      ensures var n := Known(finished, |old(simulations)|);
              && n <= |finished| && |simulations| == |old(simulations)| - n
              && history == old(history) + Completes(finished[..n])
      ensures old(history) <= history && |history| - |old(history)| <= old(Remaining()) - Remaining()
      ensures View().ledger.handled == old(View()).ledger.handled
      ensures |highPriorityQueue| == |old(highPriorityQueue)| + returned
      ensures |simulations| + returned <= |old(simulations)|
      ensures Climbing(initialBlock, View().ledger.handled) ==>
                Sum(highPriorityQueue, RipeAt(NextBlock(currentBlockNumber))) >= returned
    {
      hide Run, Potential, Step, Settle, Sum, Climbing, Legal, Open, Completes;
      returned := 0;
      var n := 0;
      NoCompletes(history, finished);
      while true
        invariant Valid() && Open(config, initialBlock, history)
        invariant n <= |finished| && |simulations| == |old(simulations)| - n
        invariant Known(finished, |old(simulations)|) == n + Known(finished[n..], |simulations|)
        invariant history == old(history) + Completes(finished[..n])
        invariant |history| - |old(history)| <= old(Remaining()) - Remaining()
        invariant View().ledger.handled == old(View()).ledger.handled
        invariant |highPriorityQueue| == |old(highPriorityQueue)| + returned
        invariant |simulations| + returned <= |old(simulations)|
        invariant Climbing(initialBlock, View().ledger.handled) ==>
                    Sum(highPriorityQueue, RipeAt(NextBlock(currentBlockNumber))) >= returned
        decreases Remaining()
      {
        var done := PollNextSimulation(finished[n..]);
        if done == None {
          break;
        }
        var (outcome, sim) := done.value;
        ghost var i := finished[n].k;
        assert i < |View().flying|;
        CompleteKeepsOpen(config, initialBlock, history, i, outcome);
        CompleteEffect(config, View(), i, outcome);
        if Climbing(initialBlock, View().ledger.handled) {
          RescheduledIsRipe(config, initialBlock, history, i, outcome);
        }
        ghost var before := highPriorityQueue;
        CompletesNext(old(history), finished, n);
        OnSimulationOutcome(outcome, sim, i);
        returned := returned + |highPriorityQueue| - |before|;
        n := n + 1;
      }
    }

    /** Starts the selected requests. */
    method StartAll(ready: seq<SimulationRequest>)
      requires Agrees(fromHandle, simulations + ready)
      modifies this`simulations
      ensures Valid()
      ensures simulations == old(simulations) + ready
    {
      var k := 0;
      while k < |ready|
        invariant k <= |ready|
        invariant simulations == old(simulations) + ready[..k]
        invariant Agrees(fromHandle, old(simulations) + ready)
      {
        simulations := simulations + [ready[k]];
        k := k + 1;
      }
      assert ready[..k] == ready;
    }

    /** One round of the poll loop. */
    method PollOnce(round: Round) returns (noMoreWork: bool)
      requires Valid() && Settled() && running
      modifies this
      ensures Valid() && Settled() && running
      ensures IsRound(config, initialBlock, old(history), history, round)
      ensures var n := Min(round.messages, |old(fromHandle)|);
              && fromHandle == old(fromHandle)[n..]
              && View().ledger.handled == old(View()).ledger.handled + old(fromHandle)[..n]
      ensures noMoreWork <==> !Started(old(history), history)
      ensures old(history) <= history && |history| - |old(history)| <= old(Remaining()) - Remaining()
      ensures |simulations| <= config.maxConcurrentSimulations
      ensures |simulations| < config.maxConcurrentSimulations ==>
                AllWait(highPriorityQueue + normalPriorityQueue, NextBlock(currentBlockNumber), round.now)
    {
      hide Run, Potential, Climbing, Sweep, Select, Sum, Judge, Legal, Served, RoundOver, AllWait,
           OnlySelects, Started, Receives, Completes, Known;
      ghost var bound := config.maxHighPrioQueueLen;
      CapacityIsLeft();
      DrainMessages(round.messages);
      ghost var returned := DrainCompletions(round.finished);
      ghost var high, normal, next := highPriorityQueue, normalPriorityQueue, NextBlock(currentBlockNumber);
      ghost var capacity := config.maxConcurrentSimulations - |simulations|;
      assert history == Begun(old(View()), old(history), round);
      var ready := PopBestRequests(round.now);
      noMoreWork := ready == [];
      StartAll(ready);
      BeginningStartsNothing(old(View()), old(history), round, history);
      SelectionEnds(config, initialBlock, history, round.now);
      if Climbing(initialBlock, View().ledger.handled) {
        BlockClimbs(config, initialBlock, history, |old(history)|);
        assert history[..|old(history)|] == old(history);
        assert old(|highPriorityQueue|) <= bound;
        SelectFreesSlots(high, normal, capacity, next, round.now, bound, returned);
        if config.maxHighPrioQueueLen == 0 {
          WithinLimitAtRest(config, initialBlock, history, Normal);
        }
      }
    }

    /** Polls round by round and stops after the first round that starts nothing.
        The messages and completions handled are exactly those that the script
        says are ready; if the first round finds every message that has
        arrived, all are handled. On return, either every slot is taken or
        every queued request waits; while blocks do not go down, the high queue
        is within its limit; and the number of steps is bounded by the work
        that was there, however simulations ended. */
    method Poll(script: nat -> Round) returns (ghost hs: seq<seq<Action>>)
      requires Valid() && Settled() && running
      modifies this
      ensures Valid() && Settled() && running
      ensures Polled(config, initialBlock, script, hs)
      ensures hs[0] == old(history) && hs[|hs| - 1] == history
      ensures script(0).messages >= |old(fromHandle)| ==>
                fromHandle == [] && View().ledger.handled == old(View()).ledger.handled + old(fromHandle)
      ensures old(history) <= history && |history| - |old(history)| <= old(Remaining()) - Remaining()
      ensures |simulations| <= config.maxConcurrentSimulations
      ensures |simulations| < config.maxConcurrentSimulations ==>
                AllWait(highPriorityQueue + normalPriorityQueue, NextBlock(currentBlockNumber), script(|hs| - 2).now)
    {
      hide Run, Potential, Climbing, Judge, IsRound, Started, AllWait, Legal, AtRest;
      hs := [history];
      var k := 0;
      while true
        invariant Valid() && Settled() && running
        invariant |hs| == k + 1 && hs[0] == old(history) && hs[k] == history
        invariant forall i :: 0 <= i < |hs| ==> Legal(config, initialBlock, hs[i])
        invariant forall i :: 0 <= i < k ==>
                    IsRound(config, initialBlock, hs[i], hs[i + 1], script(i)) && Started(hs[i], hs[i + 1])
        invariant k > 0 && script(0).messages >= |old(fromHandle)| ==>
                    fromHandle == [] && View().ledger.handled == old(View()).ledger.handled + old(fromHandle)
        invariant k == 0 ==> fromHandle == old(fromHandle) && history == old(history)
        invariant old(history) <= history && |history| - |old(history)| <= old(Remaining()) - Remaining()
        decreases Remaining()
      {
        ghost var before := history;
        var noMoreWork := PollOnce(script(k));
        hs := hs + [history];
        if noMoreWork {
          break;
        }
        StartedGrows(before, history);
        k := k + 1;
      }
    }
  }

  /** A stream of the results among the events of one listener. */
  class SimulationResultStream {
    var inner: seq<SimulationEvent>  // sent and not yet received
    var closed: bool                 // all senders are gone

    constructor (inner: seq<SimulationEvent>, closed: bool)
      ensures this.inner == inner && this.closed == closed
    {
      this.inner, this.closed := inner, closed;
    }

    /** One `poll_recv` on a channel that still hands over `ready` events before
        it answers pending. */
    method PollRecv(ready: nat) returns (r: Poll<Option<SimulationEvent>>)
      modifies this`inner
      ensures match r
              case Pending => inner == old(inner) && (ready == 0 || (old(inner) == [] && !closed))
              case Ready(None) => ready > 0 && old(inner) == [] && inner == [] && closed
              case Ready(Some(e)) => ready > 0 && old(inner) == [e] + inner
    {
      if ready == 0 {
        return Pending;
      }
      if inner == [] {
        return if closed then Ready(None) else Pending;
      }
      r := Ready(Some(inner[0]));
      inner := inner[1..];
    }

    /** Yields exactly the results among the events, in order, and skips all
        others. One poll consumes events up to the first result, and yields it;
        if there is none among the events handed over, it consumes those. */
    method PollNext(ready: nat) returns (r: Poll<Option<Result<SimulatedBundle, SimulatedBundleError>>>)
      modifies this`inner
      ensures match r
              case Pending => Results(inner) == Results(old(inner))
              case Ready(None) => Results(old(inner)) == [] && inner == [] && closed
              case Ready(Some(result)) => Results(old(inner)) == [result] + Results(inner)
      ensures |inner| <= |old(inner)| && inner == old(inner)[|old(inner)| - |inner|..]
      ensures var n := |old(inner)| - |inner|;
              match r
              case Ready(Some(result)) =>
                && 0 < n <= ready
                && NoResults(old(inner)[..n - 1]) && old(inner)[n - 1] == Simulated(result)
              case Pending =>
                n == Min(ready, |old(inner)|) && NoResults(old(inner)[..n]) && (ready <= |old(inner)| || !closed)
              case Ready(None) =>
                n == |old(inner)| && NoResults(old(inner)) && ready > |old(inner)| && closed
    {
      hide Results;
      ghost var events := inner;
      var n := 0;
      NoneLeftOut(events);
      while true
        invariant n <= |events| && n <= ready && inner == events[n..]
        invariant NoResults(events[..n])
        invariant Results(inner) == Results(events)
        decreases |inner|
      {
        var polled := PollRecv(ready - n);
        ghost var before := events[n..];
        match polled {
          case Pending =>
            return Pending;
          case Ready(None) =>
            assert events[..n] == events;
            return Ready(None);
          case Ready(Some(e)) =>
            assert events[..n + 1] == events[..n] + [e] && before == [e] + inner;
            ResultsFront(e, inner);
            n := n + 1;
            if e.Simulated? {
              return Ready(Some(e.result));
            }
        }
      }
    }
  }
}
