/** What listeners have received, over all runs. */
module Listening {
  import opened Common
  import opened Requests
  import opened Machine
  import opened Ledgers

  /** The listeners whose receiver still exists, in order. */
  function Alive(listeners: seq<Listener>): seq<Listener> {
    if listeners == [] then []
    else (if listeners[0].open then [listeners[0]] else []) + Alive(listeners[1..])
  }

  /** A notification drops exactly the closed listeners and gives each of the
      others, in the same order, the one new event. */
  lemma {:induction false} NotifiedMeaning(listeners: seq<Listener>, e: SimulationEvent)
    ensures |Notified(listeners, e)| == |Alive(listeners)|
    ensures forall i :: 0 <= i < |Alive(listeners)| ==>
              Notified(listeners, e)[i] == Alive(listeners)[i].(received := Alive(listeners)[i].received + [e])
  {
    if listeners != [] {
      NotifiedMeaning(listeners[1..], e);
    }
  }

  lemma NotifiedNothing(e: SimulationEvent)
    ensures Notified([], e) == []
  {
  }

  lemma {:induction false} NotifiedAppend(listeners: seq<Listener>, l: Listener, e: SimulationEvent)
    ensures Notified(listeners + [l], e)
         == Notified(listeners, e) + (if l.open then [l.(received := l.received + [e])] else [])
  {
    if listeners == [] {
      assert [] + [l] == [l];
    } else {
      assert (listeners + [l])[1..] == listeners[1..] + [l];
      NotifiedAppend(listeners[1..], l, e);
      var front := if listeners[0].open then [listeners[0].(received := listeners[0].received + [e])] else [];
      var last := if l.open then [l.(received := l.received + [e])] else [];
      assert front + (Notified(listeners[1..], e) + last) == (front + Notified(listeners[1..], e)) + last;
    }
  }

  lemma {:induction false} AliveMeaning(listeners: seq<Listener>)
    ensures forall l :: l in Alive(listeners) <==> l in listeners && l.open
  {
    if listeners != [] {
      AliveMeaning(listeners[1..]);
      assert listeners == [listeners[0]] + listeners[1..];
    }
  }

  /** How many events had been emitted when a listener that missed none since registered. */
  function Since(l: Listener, events: seq<SimulationEvent>): int { |events| - |l.received| }

  /** The listener has received a suffix of the events: all since it registered, in order, and nothing else. */
  predicate UpToDate(l: Listener, events: seq<SimulationEvent>) {
    Since(l, events) >= 0 && l.received == events[Since(l, events)..]
  }

  predicate AllUpToDate(s: State) {
    forall l :: l in s.listeners ==> UpToDate(l, s.ledger.events)
  }

  lemma ReceiveOne(l: Listener, events: seq<SimulationEvent>, e: SimulationEvent)
    requires UpToDate(l, events)
    ensures UpToDate(l.(received := l.received + [e]), events + [e])
  {
    var since := Since(l, events);
    assert Since(l.(received := l.received + [e]), events + [e]) == since;
    assert (events + [e])[since..] == events[since..] + [e];
  }

  lemma EmitKeepsUpToDate(s: State, e: SimulationEvent)
    requires AllUpToDate(s)
    ensures AllUpToDate(Emit(s, e))
  {
    hide Notified, Alive, UpToDate, Since;
    NotifiedMeaning(s.listeners, e);
    AliveMeaning(s.listeners);
    var events := s.ledger.events;
    forall l | l in Notified(s.listeners, e)
      ensures UpToDate(l, events + [e])
    {
      var i :| 0 <= i < |Notified(s.listeners, e)| && Notified(s.listeners, e)[i] == l;
      var before := Alive(s.listeners)[i];
      assert before in s.listeners;
      ReceiveOne(before, events, e);
    }
  }

  lemma StepKeepsUpToDate(c: Config, s: State, a: Action)
    requires Enabled(c, s, a) && AllUpToDate(s)
    ensures AllUpToDate(Step(c, s, a))
  {
    match a
    case Send(_) =>
    case HangUp(k) =>
      assert s.listeners[k] in s.listeners;
    case Receive =>
      var t := Fetch(s);
      match s.mailbox[0] {
        case UpdateBlockNumber(num) =>
          EmitKeepsUpToDate(t.(block := num), BlockNumberUpdated(s.block, s.block));
        case _ =>
      }
    case Complete(i, outcome) =>
      var t, sim := s.(flying := Without(s.flying, i)), s.flying[i];
      match outcome {
        case Success(response) =>
          EmitKeepsUpToDate(t, Simulated(Ok(SimulatedBundle(sim.request, sim.overrides, response, sim.retries))));
        case Fatal(error) =>
          EmitKeepsUpToDate(t, Simulated(Err(SimulatedBundleError(error, sim))));
        case Reschedule(_) =>
          EmitKeepsUpToDate(t, ExceededMaxRetries(sim.request, sim.overrides));
      }
    case Drop(pos, now) =>
      var r := s.Queued()[pos];
      EmitKeepsUpToDate(Unqueue(s, pos), OutdatedRequest(r.request, r.overrides, NextBlock(s.block)));
    case Launch(_, _) =>
  }

  /** Listener agreement over every run: all listeners see one and the same
      sequence of events, each from the point where it registered. */
  lemma {:induction false} ListenersAgree(c: Config, block: U64, h: seq<Action>)
    requires Legal(c, block, h)
    ensures AllUpToDate(Run(c, block, h))
    decreases |h|
  {
    if h != [] {
      var n := |h| - 1;
      ListenersAgree(c, block, h[..n]);
      StepKeepsUpToDate(c, Run(c, block, h[..n]), h[n]);
    }
  }

  /** The message handled at `j` registered a listener `id` when `since` events had been emitted. */
  predicate RegisteredAt(c: Config, block: U64, h: seq<Action>, j: nat, id: nat, since: int)
    requires Legal(c, block, h) && j < |h|
  {
    LegalPrefix(c, block, h, j);
    var s := Run(c, block, h[..j]);
    h[j].Receive? && s.mailbox[0] == AddEventListener(id) && since == |s.ledger.events|
  }

  /** Emitting and hanging up leave a listener's identity and starting point alone. */
  predicate SameListener(l: Listener, s: State, l': Listener, t: State) {
    l.id == l'.id && Since(l, s.ledger.events) == Since(l', t.ledger.events)
  }

  lemma EmitListeners(s: State, t: State, e: SimulationEvent, l': Listener)
    requires t.ledger.events == s.ledger.events + [e] && t.listeners == Notified(s.listeners, e) && l' in t.listeners
    ensures exists l :: l in s.listeners && SameListener(l, s, l', t)
  {
    NotifiedMeaning(s.listeners, e);
    AliveMeaning(s.listeners);
    var i :| 0 <= i < |t.listeners| && t.listeners[i] == l';
    assert Alive(s.listeners)[i] in s.listeners && SameListener(Alive(s.listeners)[i], s, l', t);
  }

  lemma StepListeners(c: Config, s: State, a: Action, l': Listener)
    requires Enabled(c, s, a) && l' in Step(c, s, a).listeners
    ensures (exists l :: l in s.listeners && SameListener(l, s, l', Step(c, s, a)))
            || (a.Receive? && s.mailbox[0] == AddEventListener(l'.id)
                && Since(l', Step(c, s, a).ledger.events) == |s.ledger.events|)
  {
    var t := Step(c, s, a);
    if |t.ledger.events| == |s.ledger.events| + 1 {
      EmitListeners(s, t, t.ledger.events[|s.ledger.events|], l');
    } else if a.HangUp? {
      assert s.listeners[a.k] in s.listeners;
      var i :| 0 <= i < |t.listeners| && t.listeners[i] == l';
      assert s.listeners[i] in s.listeners && SameListener(s.listeners[i], s, l', t);
    } else if l' in s.listeners {
      assert SameListener(l', s, l', t);
    }
  }

  /** Each listener's events begin at the handling of its own registration. */
  lemma {:induction false} BeginsAtRegistration(c: Config, block: U64, h: seq<Action>, l: Listener)
    requires Legal(c, block, h) && l in Run(c, block, h).listeners
    ensures exists j: nat :: j < |h| && RegisteredAt(c, block, h, j, l.id, Since(l, Run(c, block, h).ledger.events))
    decreases |h|
  {
    var n := |h| - 1;
    var g := h[..n];
    var s, t := Run(c, block, g), Run(c, block, h);
    var since := Since(l, t.ledger.events);
    StepListeners(c, s, h[n], l);
    if l0 :| l0 in s.listeners && SameListener(l0, s, l, t) {
      BeginsAtRegistration(c, block, g, l0);
      var j: nat :| j < |g| && RegisteredAt(c, block, g, j, l.id, since);
      assert g[..j] == h[..j];
      assert RegisteredAt(c, block, h, j, l.id, since);
    } else {
      assert RegisteredAt(c, block, h, n, l.id, since);
    }
  }

  lemma EmitKeepsListener(s: State, t: State, e: SimulationEvent, l: Listener)
    requires t.ledger.events == s.ledger.events + [e] && t.listeners == Notified(s.listeners, e)
    requires l in s.listeners && l.open
    ensures exists l' :: l' in t.listeners && l'.open && SameListener(l, s, l', t)
  {
    NotifiedMeaning(s.listeners, e);
    AliveMeaning(s.listeners);
    var i :| 0 <= i < |Alive(s.listeners)| && Alive(s.listeners)[i] == l;
    assert t.listeners[i] in t.listeners && t.listeners[i].open && SameListener(l, s, t.listeners[i], t);
  }

  lemma StepKeepsListener(c: Config, s: State, a: Action, l: Listener)
    requires Enabled(c, s, a) && l in s.listeners && l.open
    requires a.HangUp? ==> s.listeners[a.k].id != l.id
    ensures exists l' :: l' in Step(c, s, a).listeners && l'.open && SameListener(l, s, l', Step(c, s, a))
  {
    var t := Step(c, s, a);
    if |t.ledger.events| == |s.ledger.events| + 1 {
      EmitKeepsListener(s, t, t.ledger.events[|s.ledger.events|], l);
    } else {
      var i :| 0 <= i < |s.listeners| && s.listeners[i] == l;
      assert t.listeners[i] == l;
      assert SameListener(l, s, l, t);
    }
  }

  /** No listener of this id hangs up after the action at `j`. */
  predicate StaysOn(c: Config, block: U64, h: seq<Action>, j: nat, id: nat)
    requires Legal(c, block, h)
    decreases |h|
  {
    |h| <= j + 1 ||
    var g, a := h[..|h| - 1], h[|h| - 1];
    StaysOn(c, block, g, j, id) && (a.HangUp? ==> Run(c, block, g).listeners[a.k].id != id)
  }

  /** A listener that registered and does not hang up is never dropped, and has
      received every event since it registered. */
  lemma {:induction false} ListenersStay(c: Config, block: U64, h: seq<Action>, j: nat, id: nat, since: nat)
    requires Legal(c, block, h) && j < |h| && RegisteredAt(c, block, h, j, id, since)
    requires StaysOn(c, block, h, j, id)
    ensures var s := Run(c, block, h);
            exists l :: && l in s.listeners && l.id == id && l.open
                        && since <= |s.ledger.events| && l.received == s.ledger.events[since..]
    decreases |h|
  {
    var n := |h| - 1;
    var g := h[..n];
    var s, t := Run(c, block, g), Run(c, block, h);
    ListenersAgree(c, block, h);
    if j == n {
      assert Listener(id, true, []) in t.listeners;
    } else {
      assert g[..j] == h[..j];
      ListenersStay(c, block, g, j, id, since);
      var l :| l in s.listeners && l.id == id && l.open
               && since <= |s.ledger.events| && l.received == s.ledger.events[since..];
      StepKeepsListener(c, s, h[n], l);
      var l' :| l' in t.listeners && l'.open && SameListener(l, s, l', t);
      assert UpToDate(l', t.ledger.events);
    }
  }

  /** What `results()` lets through. */
  function Results(events: seq<SimulationEvent>): seq<Result<SimulatedBundle, SimulatedBundleError>> {
    if events == [] then []
    else (if events[0].Simulated? then [events[0].result] else []) + Results(events[1..])
  }

  lemma ResultsFront(e: SimulationEvent, events: seq<SimulationEvent>)
    ensures Results([e] + events) == (if e.Simulated? then [e.result] else []) + Results(events)
  {
    assert ([e] + events)[1..] == events;
  }

  lemma {:induction false} ResultsConcat(a: seq<SimulationEvent>, b: seq<SimulationEvent>)
    ensures Results(a + b) == Results(a) + Results(b)
  {
    if a == [] {
      assert a + b == b;
    } else {
      assert (a + b)[1..] == a[1..] + b;
      ResultsConcat(a[1..], b);
    }
  }

  /** What lets through which event: results of both kinds, and nothing else. */
  lemma ResultsOfOne(
    result: Result<SimulatedBundle, SimulatedBundleError>,
    request: SendBundleRequest, overrides: SimBundleOverrides, block: U64, block': U64)
    ensures Results([Simulated(result)]) == [result]
    ensures Results([OutdatedRequest(request, overrides, block)]) == []
    ensures Results([ExceededMaxRetries(request, overrides)]) == []
    ensures Results([BlockNumberUpdated(block, block')]) == []
  {
    ResultsFront(Simulated(result), []);
    assert Results([]) == [];
    assert [Simulated(result)] + [] == [Simulated(result)];
  }

  predicate NoResults(events: seq<SimulationEvent>) {
    forall e :: e in events ==> !e.Simulated?
  }

  lemma NoneLeftOut(events: seq<SimulationEvent>)
    ensures NoResults(events[..0]) && events[0..] == events && Results([]) == []
  {
  }

  function ResultFor(job: Job): Result<SimulatedBundle, SimulatedBundleError> -> nat {
    (r: Result<SimulatedBundle, SimulatedBundleError>) =>
      if (match r case Ok(b) => (b.request, b.overrides) case Err(f) => f.sim.Job()) == job then 1 else 0
  }

  lemma {:induction false} ResultsClose(events: seq<SimulationEvent>, job: Job)
    ensures Sum(Results(events), ResultFor(job)) <= Closed(events, job)
  {
    if events != [] {
      ResultsClose(events[1..], job);
      if events[0].Simulated? {
        var result := events[0].result;
        assert ResultFor(job)(result) == Finishes(job)(events[0]) by {
          match result case Ok(_) => case Err(_) =>
        }
        SumAppend([], result, ResultFor(job));
        assert [] + [result] == [result];
        SumConcat([result], Results(events[1..]), ResultFor(job));
      } else {
        assert [] + Results(events[1..]) == Results(events[1..]);
      }
    }
  }

  /** No listener ever gets more than one result for an accepted request. */
  lemma AtMostOneResult(c: Config, block: U64, h: seq<Action>, l: Listener, job: Job)
    requires Legal(c, block, h) && NoTwins(Run(c, block, h)) && l in Run(c, block, h).listeners
    ensures Sum(Results(l.received), ResultFor(job)) <= 1
  {
    var s := Run(c, block, h);
    ListenersAgree(c, block, h);
    Conservation(c, block, h, job);
    ResultsClose(l.received, job);
    var since := Since(l, s.ledger.events);
    assert s.ledger.events == s.ledger.events[..since] + l.received;
    SumConcat(s.ledger.events[..since], l.received, Finishes(job));
    assert Count(s.ledger.accepted, job) <= 1;
  }
}
