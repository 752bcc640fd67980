/** Who may start before whom, over all runs. */
module Fairness {
  import opened Common
  import opened Requests
  import opened Selection
  import opened Machine
  import opened Bounds
  import opened Windows
  import opened Limits

  /** No overtaking: whenever a request starts, every request queued ahead of
      it, of its own or the higher priority, is still waiting for its first
      block and is not outdated. */
  lemma NoOvertaking(c: Config, block: U64, h: seq<Action>, j: nat)
    requires Legal(c, block, h) && j < |h| && h[j].Launch?
    ensures Legal(c, block, h[..j])
    ensures var s := Run(c, block, h[..j]);
            && h[j].pos < |s.high| + |s.normal|
            && forall i :: 0 <= i < h[j].pos ==>
                 && NextBlock(s.block) <= s.Queued()[i].request.inclusion.block
                 && !s.Queued()[i].ExceedsTargetBlock(NextBlock(s.block))
  {
    LegalPrefix(c, block, h, j);
    AlwaysTidy(c, block, h[..j]);
    var s := Run(c, block, h[..j]);
    forall i | 0 <= i < h[j].pos
      ensures NextBlock(s.block) <= s.Queued()[i].request.inclusion.block
      ensures !s.Queued()[i].ExceedsTargetBlock(NextBlock(s.block))
    {
      assert s.Queued()[i] in s.high || s.Queued()[i] in s.normal;
      assert Judge(s.Queued()[i], NextBlock(s.block), h[j].now) == Waiting;
    }
  }

  /** Where the high-priority entry at position `p` is after an action, if still queued. */
  function Follow(s: State, a: Action, p: nat): Option<nat> {
    match a
    case Receive => if s.mailbox != [] && s.mailbox[0].ClearQueue? then None else Some(p)
    case Drop(pos, _) => if pos < p then Some(p - 1) else if pos == p then None else Some(p)
    case Launch(pos, _) => if pos < p then Some(p - 1) else if pos == p then None else Some(p)
    case _ => Some(p)
  }

  lemma FollowIsRight(c: Config, s: State, a: Action, p: nat)
    requires Enabled(c, s, a) && p < |s.high| && Follow(s, a, p).Some?
    ensures var p' := Follow(s, a, p).value; p' < |Step(c, s, a).high| && Step(c, s, a).high[p'] == s.high[p]
  {
  }

  /** Where the high-priority entry that was at `p` after `j` actions is now. */
  function Track(c: Config, block: U64, h: seq<Action>, j: nat, p: nat): Option<nat>
    requires Legal(c, block, h) && j <= |h|
    decreases |h|
  {
    if |h| == j then Some(p)
    else
      var g := h[..|h| - 1];
      match Track(c, block, g, j, p)
      case None => None
      case Some(q) => Follow(Run(c, block, g), h[|h| - 1], q)
  }

  /** How many requests were dropped or started from action `j` on. */
  function Selections(h: seq<Action>, j: nat): nat
    requires j <= |h|
    decreases |h|
  {
    if |h| == j then 0
    else
      var a := h[|h| - 1];
      Selections(h[..|h| - 1], j) + (if a.Drop? || a.Launch? then 1 else 0)
  }

  /** What is tracked is one and the same entry. */
  lemma {:induction false} TrackIsRight(c: Config, block: U64, h: seq<Action>, j: nat, p: nat)
    requires Legal(c, block, h) && j <= |h|
    ensures Legal(c, block, h[..j])
    ensures p < |Run(c, block, h[..j]).high| && Track(c, block, h, j, p).Some? ==>
              var q := Track(c, block, h, j, p).value;
              q < |Run(c, block, h).high| && Run(c, block, h).high[q] == Run(c, block, h[..j]).high[p]
    decreases |h|
  {
    LegalPrefix(c, block, h, j);
    if |h| == j {
      assert h[..j] == h;
    } else {
      var n := |h| - 1;
      TrackIsRight(c, block, h[..n], j, p);
      assert h[..n][..j] == h[..j];
      if p < |Run(c, block, h[..j]).high| && Track(c, block, h, j, p).Some? {
        FollowIsRight(c, Run(c, block, h[..n]), h[n], Track(c, block, h[..n], j, p).value);
      }
    }
  }

  /** A selection while the entry at `p` could be started happens at `p` or ahead of it. */
  lemma SelectionIsAhead(c: Config, s: State, a: Action, p: nat)
    requires Enabled(c, s, a) && (a.Drop? || a.Launch?)
    requires p < |s.high| && s.high[p].backedOffUntil == None && s.high[p].IsMinBlock(NextBlock(s.block))
    ensures a.pos <= p
  {
    assert s.Queued()[p] == s.high[p];
    assert Judge(s.high[p], NextBlock(s.block), a.now) != Waiting;
  }

  /** Bounded bypass: on a climbing run, once the first block of a
      high-priority request at position `p` has been reached, every request
      dropped or started while it stays queued was ahead of it, so each such
      selection moves it one place forward and at most `p` of them happen. */
  lemma {:induction false} BoundedBypass(c: Config, block: U64, h: seq<Action>, j: nat, p: nat)
    requires Legal(c, block, h) && j <= |h| && Climbing(block, Run(c, block, h).ledger.handled)
    requires Legal(c, block, h[..j])
    requires p < |Run(c, block, h[..j]).high|
    requires Run(c, block, h[..j]).high[p].IsMinBlock(NextBlock(Run(c, block, h[..j]).block))
    requires Track(c, block, h, j, p).Some?
    ensures Track(c, block, h, j, p).value + Selections(h, j) == p
    decreases |h|
  {
    hide Step, Climbing, Judge;
    if |h| > j {
      var n := |h| - 1;
      var g := h[..n];
      assert g[..j] == h[..j];
      BlockClimbs(c, block, h, n);
      BoundedBypass(c, block, g, j, p);
      if h[n].Drop? || h[n].Launch? {
        TrackIsRight(c, block, g, j, p);
        var s, q := Run(c, block, g), Track(c, block, g, j, p).value;
        BlockClimbs(c, block, g, j);
        AlwaysTidy(c, block, g);
        assert s.high[q] in s.high;
        SelectionIsAhead(c, s, h[n], q);
      }
    }
  }

  // ---- Arrival order ----

  /** `a` is `b` with some elements left out. */
  predicate Subsequence<T(==)>(a: seq<T>, b: seq<T>)
    decreases |b|
  {
    if a == [] then true
    else if b == [] then false
    else
      || (a[|a| - 1] == b[|b| - 1] && Subsequence(a[..|a| - 1], b[..|b| - 1]))
      || Subsequence(a, b[..|b| - 1])
  }

  lemma SubsequenceAppend<T>(a: seq<T>, b: seq<T>, x: T)
    requires Subsequence(a, b)
    ensures Subsequence(a, b + [x]) && Subsequence(a + [x], b + [x])
  {
    assert (b + [x])[..|b|] == b && (a + [x])[..|a|] == a;
  }

  lemma {:induction false} SubsequenceWithout<T>(a: seq<T>, x: T, b: seq<T>, c: seq<T>)
    requires Subsequence(a + [x] + b, c)
    ensures Subsequence(a + b, c)
    decreases |c|
  {
    var s, m := a + [x] + b, |c| - 1;
    assert c == c[..m] + [c[m]];
    if Subsequence(s, c[..m]) {
      SubsequenceWithout(a, x, b, c[..m]);
      SubsequenceAppend(a + b, c[..m], c[m]);
    } else if b == [] {
      assert s[..|s| - 1] == a && a + b == a;
      SubsequenceAppend(a, c[..m], c[m]);
    } else {
      var front := b[..|b| - 1];
      assert s[..|s| - 1] == a + [x] + front;
      SubsequenceWithout(a, x, front, c[..m]);
      SubsequenceAppend(a + front, c[..m], c[m]);
      assert a + b == a + front + [c[m]];
    }
  }

  /** The requests that were never started, in order. */
  function Fresh(q: seq<SimulationRequest>): seq<SimulationRequest> {
    if q == [] then [] else (if q[0].retries == 0 then [q[0]] else []) + Fresh(q[1..])
  }

  lemma {:induction false} FreshConcat(p: seq<SimulationRequest>, q: seq<SimulationRequest>)
    ensures Fresh(p + q) == Fresh(p) + Fresh(q)
  {
    if p == [] {
      assert p + q == q;
    } else {
      assert (p + q)[1..] == p[1..] + q;
      FreshConcat(p[1..], q);
      var first := if p[0].retries == 0 then [p[0]] else [];
      assert first + (Fresh(p[1..]) + Fresh(q)) == (first + Fresh(p[1..])) + Fresh(q);
    }
  }

  lemma FreshOne(r: SimulationRequest)
    ensures Fresh([r]) == if r.retries == 0 then [r] else []
  {
  }

  lemma FreshWithout(q: seq<SimulationRequest>, i: nat, accepted: seq<SimulationRequest>)
    requires i < |q| && Subsequence(Fresh(q), accepted)
    ensures Subsequence(Fresh(Without(q, i)), accepted)
  {
    var before, after := q[..i], q[i + 1..];
    assert q == before + [q[i]] + after;
    FreshConcat(before + [q[i]], after);
    FreshConcat(before, [q[i]]);
    FreshConcat(before, after);
    FreshOne(q[i]);
    if q[i].retries == 0 {
      SubsequenceWithout(Fresh(before), q[i], Fresh(after), accepted);
    } else {
      assert Fresh(before) + [] == Fresh(before);
    }
  }

  /** Pushing at the back keeps the order: a new request was accepted last, a retried one is not fresh. */
  lemma FreshPush(q: seq<SimulationRequest>, r: SimulationRequest, accepted: seq<SimulationRequest>)
    requires Subsequence(Fresh(q), accepted)
    ensures r.retries > 0 ==> Subsequence(Fresh(q + [r]), accepted)
    ensures r.retries == 0 ==> Subsequence(Fresh(q + [r]), accepted + [r])
    ensures Subsequence(Fresh(q), accepted + [r])
  {
    FreshConcat(q, [r]);
    FreshOne(r);
    SubsequenceAppend(Fresh(q), accepted, r);
    assert Fresh(q) + [] == Fresh(q);
  }

  predicate InArrivalOrder(s: State, p: SimulationPriority) {
    Subsequence(Fresh(Queue(s, p)), s.ledger.accepted)
  }

  lemma ReceiveKeepsOrder(c: Config, s: State, p: SimulationPriority)
    requires s.mailbox != [] && FromHandle(s.mailbox[0]) && InArrivalOrder(s, p)
    ensures InArrivalOrder(Step(c, s, Receive), p)
  {
    hide Subsequence, Fresh;
    var m := s.mailbox[0];
    if m.AddSimulation? {
      FreshPush(Queue(s, p), m.request, s.ledger.accepted);
    } else if m.ClearQueue? {
      NothingIsInOrder(s.ledger.accepted);
    }
  }

  lemma NothingIsInOrder(accepted: seq<SimulationRequest>)
    ensures Subsequence(Fresh([]), accepted)
  {
  }

  lemma CompleteKeepsOrder(c: Config, s: State, i: nat, outcome: BundleSimulationOutcome, p: SimulationPriority)
    requires i < |s.flying| && InArrivalOrder(s, p)
    ensures InArrivalOrder(Step(c, s, Complete(i, outcome)), p)
  {
    hide Subsequence, Fresh;
    var sim := s.flying[i];
    FreshPush(Queue(s, p), sim.(retries := sim.retries + 1), s.ledger.accepted);
  }

  lemma UnqueueKeepsOrder(s: State, pos: nat, p: SimulationPriority)
    requires pos < |s.Queued()| && InArrivalOrder(s, p)
    ensures InArrivalOrder(Unqueue(s, pos), p)
  {
    hide Subsequence, Fresh;
    if pos < |s.high| {
      if p == High { FreshWithout(s.high, pos, s.ledger.accepted); }
    } else {
      if p == Normal { FreshWithout(s.normal, pos - |s.high|, s.ledger.accepted); }
    }
  }

  lemma SelectKeepsOrder(c: Config, s: State, a: Action, p: SimulationPriority)
    requires Enabled(c, s, a) && (a.Drop? || a.Launch?) && InArrivalOrder(s, p)
    ensures InArrivalOrder(Step(c, s, a), p)
  {
    hide Subsequence, Fresh, Judge, HighWithout, NormalWithout;
    UnqueueKeepsOrder(s, a.pos, p);
  }

  /** Arrival order over every run: in either queue the requests that were
      never started stand in the order in which they were accepted. */
  lemma {:induction false} ArrivalOrder(c: Config, block: U64, h: seq<Action>, p: SimulationPriority)
    requires Legal(c, block, h)
    ensures InArrivalOrder(Run(c, block, h), p)
    decreases |h|
  {
    hide Subsequence, Fresh;
    if h == [] {
      NothingIsInOrder([]);
    } else {
      var n := |h| - 1;
      var s := Run(c, block, h[..n]);
      ArrivalOrder(c, block, h[..n], p);
      AlwaysTidy(c, block, h[..n]);
      match h[n]
      case Receive =>
        assert s.mailbox[0] in s.mailbox;
        ReceiveKeepsOrder(c, s, p);
      case Complete(i, outcome) => CompleteKeepsOrder(c, s, i, outcome, p);
      case Drop(_, _) => SelectKeepsOrder(c, s, h[n], p);
      case Launch(_, _) => SelectKeepsOrder(c, s, h[n], p);
      case _ =>
    }
  }
}
