/** What one selection of the scheduler means: a single sweep over both queues.
    The service finds the same answer by scanning from the front again after
    every removal. */
module Selection {
  import opened Common
  import opened Requests

  datatype Verdict = Waiting | Outdated | Eligible

  function Judge(r: SimulationRequest, next: U64, now: Instant): Verdict {
    if !r.IsReadyAt(now) then Waiting
    else if r.ExceedsTargetBlock(next) then Outdated
    else if r.IsMinBlock(next) then Eligible
    else Waiting
  }

  /** The entries of `q` with the given verdict, in order. */
  function Those(q: seq<SimulationRequest>, v: Verdict, next: U64, now: Instant): seq<SimulationRequest> {
    if q == [] then []
    else (if Judge(q[0], next, now) == v then [q[0]] else []) + Those(q[1..], v, next, now)
  }

  datatype Swept = Swept(taken: seq<SimulationRequest>, dropped: seq<SimulationRequest>, rest: seq<SimulationRequest>)

  /** One sweep over one queue: take eligible entries and drop outdated ones
      until `capacity` entries are taken. */
  function Sweep(q: seq<SimulationRequest>, capacity: nat, next: U64, now: Instant): Swept
    decreases |q|
  {
    if capacity == 0 || q == [] then Swept([], [], q)
    else match Judge(q[0], next, now)
      case Waiting => var s := Sweep(q[1..], capacity, next, now); s.(rest := [q[0]] + s.rest)
      case Outdated => var s := Sweep(q[1..], capacity, next, now); s.(dropped := [q[0]] + s.dropped)
      case Eligible => var s := Sweep(q[1..], capacity - 1, next, now); s.(taken := [q[0]] + s.taken)
  }

  /** `cut` is where a selection of `capacity` entries stops looking: right
      after the last eligible entry it can take, or at the end. */
  predicate IsCut(q: seq<SimulationRequest>, capacity: nat, next: U64, now: Instant, cut: nat) {
    && cut <= |q|
    && var found := |Those(q[..cut], Eligible, next, now)|;
    && found <= capacity
    && (found < capacity ==> cut == |q|)
    && (found == capacity && cut > 0 ==> Judge(q[cut - 1], next, now) == Eligible)
  }

  lemma ThoseCons(r: SimulationRequest, q: seq<SimulationRequest>, v: Verdict, next: U64, now: Instant)
    ensures Those([r] + q, v, next, now) == (if Judge(r, next, now) == v then [r] else []) + Those(q, v, next, now)
  {
    assert ([r] + q)[1..] == q;
  }

  /** The cut of a queue is the cut of its tail, one further. */
  lemma CutOfTail(q: seq<SimulationRequest>, capacity: nat, next: U64, now: Instant, cut: nat)
    requires cut > 0 && IsCut(q, capacity, next, now, cut)
    ensures capacity > 0
    ensures IsCut(q[1..], if Judge(q[0], next, now) == Eligible then capacity - 1 else capacity, next, now, cut - 1)
  {
    assert q[..cut] == [q[0]] + q[1..][..cut - 1];
    ThoseCons(q[0], q[1..][..cut - 1], Eligible, next, now);
    assert cut > 1 ==> q[1..][cut - 2] == q[cut - 1];
    if capacity == 0 {
      LastIsThere(q[..cut], Eligible, next, now);
      assert false;
    }
  }

  /** A queue cut at `cut`: the eligible entries before the cut, the outdated
      ones before it, and the waiting ones before it with all that follows. */
  function CutAt(q: seq<SimulationRequest>, next: U64, now: Instant, cut: nat): Swept
    requires cut <= |q|
  {
    Swept(Those(q[..cut], Eligible, next, now),
          Those(q[..cut], Outdated, next, now),
          Those(q[..cut], Waiting, next, now) + q[cut..])
  }

  lemma CutAtCons(q: seq<SimulationRequest>, next: U64, now: Instant, cut: nat)
    requires 0 < cut <= |q|
    ensures var s, t := CutAt(q, next, now, cut), CutAt(q[1..], next, now, cut - 1);
            match Judge(q[0], next, now)
            case Waiting => s == t.(rest := [q[0]] + t.rest)
            case Outdated => s == t.(dropped := [q[0]] + t.dropped)
            case Eligible => s == t.(taken := [q[0]] + t.taken)
  {
    assert q[..cut][1..] == q[1..][..cut - 1];
    assert q[1..][cut - 1..] == q[cut..];
  }

  /** What a sweep means: it cuts the queue right after the last entry it can take. */
  lemma {:induction false} SweepMeaning(q: seq<SimulationRequest>, capacity: nat, next: U64, now: Instant, cut: nat)
    requires IsCut(q, capacity, next, now, cut)
    ensures Sweep(q, capacity, next, now) == CutAt(q, next, now, cut)
    decreases |q|
  {
    if cut == 0 {
      assert q[..cut] == [];
    } else {
      CutOfTail(q, capacity, next, now, cut);
      CutAtCons(q, next, now, cut);
      SweepMeaning(q[1..], if Judge(q[0], next, now) == Eligible then capacity - 1 else capacity, next, now, cut - 1);
    }
  }

  /** Every selection has a cut, so `SweepMeaning` speaks about all of them. */
  lemma {:induction false} CutExists(q: seq<SimulationRequest>, capacity: nat, next: U64, now: Instant)
    returns (cut: nat)
    ensures IsCut(q, capacity, next, now, cut)
    decreases |q|
  {
    if capacity == 0 || q == [] {
      cut := 0;
    } else {
      var eligible := Judge(q[0], next, now) == Eligible;
      var tail := CutExists(q[1..], if eligible then capacity - 1 else capacity, next, now);
      cut := tail + 1;
      assert q[..cut] == [q[0]] + q[1..][..cut - 1];
      ThoseCons(q[0], q[1..][..cut - 1], Eligible, next, now);
      assert cut > 1 ==> q[1..][cut - 2] == q[cut - 1];
      if cut == 1 && !eligible {
        assert Those(q[1..][..0], Eligible, next, now) == [];
      }
    }
  }

  lemma {:induction false} LastIsThere(q: seq<SimulationRequest>, v: Verdict, next: U64, now: Instant)
    requires q != [] && Judge(q[|q| - 1], next, now) == v
    ensures Those(q, v, next, now) != []
  {
    if |q| > 1 {
      LastIsThere(q[1..], v, next, now);
    }
  }

  datatype Selected = Selected(
    taken: seq<SimulationRequest>,
    dropped: seq<SimulationRequest>,
    high: seq<SimulationRequest>,
    normal: seq<SimulationRequest>)

  /** One sweep over the high queue and then, with what capacity is left, over the normal queue. */
  function Select(high: seq<SimulationRequest>, normal: seq<SimulationRequest>, capacity: nat, next: U64, now: Instant)
    : Selected
  {
    var h := Sweep(high, capacity, next, now);
    SweepWithinCapacity(high, capacity, next, now);
    var n := Sweep(normal, capacity - |h.taken|, next, now);
    Selected(h.taken + n.taken, h.dropped + n.dropped, h.rest, n.rest)
  }

  lemma {:induction false} SweepWithinCapacity(q: seq<SimulationRequest>, capacity: nat, next: U64, now: Instant)
    ensures |Sweep(q, capacity, next, now).taken| <= capacity
    decreases |q|
  {
    if capacity != 0 && q != [] {
      var eligible := Judge(q[0], next, now) == Eligible;
      SweepWithinCapacity(q[1..], if eligible then capacity - 1 else capacity, next, now);
    }
  }

  /** Sweeping the two queues in turn is sweeping their concatenation and
      splitting what remains at the old boundary between them. */
  lemma {:induction false} SelectIsOneSweep(
    high: seq<SimulationRequest>, normal: seq<SimulationRequest>, capacity: nat, next: U64, now: Instant)
    ensures var s := Select(high, normal, capacity, next, now);
            Sweep(high + normal, capacity, next, now) == Swept(s.taken, s.dropped, s.high + s.normal)
    decreases |high|
  {
    if capacity == 0 {
    } else if high == [] {
      assert high + normal == normal;
    } else {
      assert (high + normal)[1..] == high[1..] + normal;
      var eligible := Judge(high[0], next, now) == Eligible;
      SelectIsOneSweep(high[1..], normal, if eligible then capacity - 1 else capacity, next, now);
    }
  }

  /** `pos` is the first entry of `q` that does not wait. */
  predicate IsFirstActive(q: seq<SimulationRequest>, pos: nat, next: U64, now: Instant) {
    && pos < |q|
    && (forall i :: 0 <= i < pos ==> Judge(q[i], next, now) == Waiting)
    && Judge(q[pos], next, now) != Waiting
  }

  predicate AllWait(q: seq<SimulationRequest>, next: U64, now: Instant) {
    forall i :: 0 <= i < |q| ==> Judge(q[i], next, now) == Waiting
  }

  /** The high queue after the entry at `pos` of both queues in a row is removed. */
  function HighWithout(high: seq<SimulationRequest>, pos: nat): seq<SimulationRequest> {
    if pos < |high| then Without(high, pos) else high
  }

  function NormalWithout(high: seq<SimulationRequest>, normal: seq<SimulationRequest>, pos: nat): seq<SimulationRequest>
    requires pos < |high| + |normal|
  {
    if pos < |high| then normal else Without(normal, pos - |high|)
  }

  lemma {:induction false} SweepAllWait(q: seq<SimulationRequest>, capacity: nat, next: U64, now: Instant)
    requires AllWait(q, next, now)
    ensures Sweep(q, capacity, next, now) == Swept([], [], q)
    decreases |q|
  {
    if capacity != 0 && q != [] {
      SweepAllWait(q[1..], capacity, next, now);
    }
  }

  /** Sweeping again from the front after a removal loses nothing. */
  lemma {:induction false} SweepRestart(q: seq<SimulationRequest>, capacity: nat, next: U64, now: Instant, pos: nat)
    requires capacity > 0 && IsFirstActive(q, pos, next, now)
    ensures var s := Sweep(q, capacity, next, now);
            if Judge(q[pos], next, now) == Outdated then
              var t := Sweep(Without(q, pos), capacity, next, now);
              s == t.(dropped := [q[pos]] + t.dropped)
            else
              var t := Sweep(Without(q, pos), capacity - 1, next, now);
              s == Swept([q[pos]] + t.taken, t.dropped, t.rest)
    decreases |q|
  {
    if pos == 0 {
      assert Without(q, 0) == q[1..];
    } else {
      assert q[1..][pos - 1] == q[pos];
      SweepRestart(q[1..], capacity, next, now, pos - 1);
      assert Without(q, pos)[1..] == Without(q[1..], pos - 1);
      assert Without(q, pos)[0] == q[0];
      if Judge(q[pos], next, now) == Eligible && capacity == 1 {
        assert [q[0]] + Without(q[1..], pos - 1) == Without(q, pos);
      }
    }
  }

  /** What `Select` becomes when the entry at `pos` is the first that does not wait. */
  predicate Restarts(s: Selected, t: Selected, item: SimulationRequest, next: U64, now: Instant) {
    if Judge(item, next, now) == Outdated
    then s == t.(dropped := [item] + t.dropped)
    else s == t.(taken := [item] + t.taken)
  }

  /** The capacity left after the item is removed. */
  function CapacityAfter(item: SimulationRequest, capacity: nat, next: U64, now: Instant): nat
    requires capacity > 0
  {
    if Judge(item, next, now) == Outdated then capacity else capacity - 1
  }

  /** The same for both queues: what is selected is the first active entry and
      then whatever a fresh selection on the shortened queues would select. */
  lemma SelectRestart(
    high: seq<SimulationRequest>, normal: seq<SimulationRequest>, capacity: nat, next: U64, now: Instant, pos: nat)
    requires capacity > 0 && IsFirstActive(high + normal, pos, next, now)
    ensures var item := (high + normal)[pos];
            Restarts(Select(high, normal, capacity, next, now),
                     Select(HighWithout(high, pos), NormalWithout(high, normal, pos),
                            CapacityAfter(item, capacity, next, now), next, now),
                     item, next, now)
  {
    if pos < |high| {
      RestartInHigh(high, normal, capacity, next, now, pos);
    } else {
      RestartInNormal(high, normal, capacity, next, now, pos - |high|);
    }
  }

  lemma RestartInHigh(
    high: seq<SimulationRequest>, normal: seq<SimulationRequest>, capacity: nat, next: U64, now: Instant, pos: nat)
    requires capacity > 0 && pos < |high| && IsFirstActive(high + normal, pos, next, now)
    ensures Restarts(Select(high, normal, capacity, next, now),
                     Select(Without(high, pos), normal, CapacityAfter(high[pos], capacity, next, now), next, now),
                     high[pos], next, now)
  {
    assert forall i :: 0 <= i <= pos ==> high[i] == (high + normal)[i];
    SweepRestart(high, capacity, next, now, pos);
  }

  lemma RestartInNormal(
    high: seq<SimulationRequest>, normal: seq<SimulationRequest>, capacity: nat, next: U64, now: Instant, p: nat)
    requires capacity > 0 && IsFirstActive(high + normal, |high| + p, next, now)
    ensures Restarts(Select(high, normal, capacity, next, now),
                     Select(high, Without(normal, p), CapacityAfter(normal[p], capacity, next, now), next, now),
                     normal[p], next, now)
  {
    var q := high + normal;
    assert AllWait(high, next, now) by {
      assert forall i :: 0 <= i < |high| ==> high[i] == q[i];
    }
    assert IsFirstActive(normal, p, next, now) by {
      assert forall i :: 0 <= i <= p ==> normal[i] == q[|high| + i];
    }
    SweepAllWait(high, capacity, next, now);
    SweepAllWait(high, capacity - 1, next, now);
    SweepRestart(normal, capacity, next, now, p);
  }

  lemma SelectAllWait(
    high: seq<SimulationRequest>, normal: seq<SimulationRequest>, capacity: nat, next: U64, now: Instant)
    requires AllWait(high + normal, next, now)
    ensures Select(high, normal, capacity, next, now) == Selected([], [], high, normal)
  {
    var q := high + normal;
    assert forall i :: 0 <= i < |high| ==> high[i] == q[i];
    assert forall i :: 0 <= i < |normal| ==> normal[i] == q[|high| + i];
    SweepAllWait(high, capacity, next, now);
    SweepAllWait(normal, capacity, next, now);
  }

  /** `whole` is a selection of which `taken` and `dropped` are done and `left` is still to do. */
  predicate Continues(
    whole: Selected, taken: seq<SimulationRequest>, dropped: seq<SimulationRequest>, left: Selected)
  {
    whole == Selected(taken + left.taken, dropped + left.dropped, left.high, left.normal)
  }

  lemma ContinueDropping(
    whole: Selected, taken: seq<SimulationRequest>, dropped: seq<SimulationRequest>,
    left: Selected, item: SimulationRequest, rest: Selected)
    requires Continues(whole, taken, dropped, left) && left == rest.(dropped := [item] + rest.dropped)
    ensures Continues(whole, taken, dropped + [item], rest)
  {
    assert dropped + ([item] + rest.dropped) == (dropped + [item]) + rest.dropped;
  }

  lemma ContinueTaking(
    whole: Selected, taken: seq<SimulationRequest>, dropped: seq<SimulationRequest>,
    left: Selected, item: SimulationRequest, rest: Selected)
    requires Continues(whole, taken, dropped, left) && left == rest.(taken := [item] + rest.taken)
    ensures Continues(whole, taken + [item], dropped, rest)
  {
    assert taken + ([item] + rest.taken) == (taken + [item]) + rest.taken;
  }

  lemma ContinuesAgain(
    whole: Selected, taken: seq<SimulationRequest>, dropped: seq<SimulationRequest>,
    middle: Selected, taken': seq<SimulationRequest>, dropped': seq<SimulationRequest>, left: Selected)
    requires Continues(whole, taken, dropped, middle) && Continues(middle, taken', dropped', left)
    ensures Continues(whole, taken + taken', dropped + dropped', left)
  {
    assert taken + (taken' + left.taken) == (taken + taken') + left.taken;
    assert dropped + (dropped' + left.dropped) == (dropped + dropped') + left.dropped;
  }

  /** Nothing is selected without capacity. */
  lemma SelectZero(high: seq<SimulationRequest>, normal: seq<SimulationRequest>, next: U64, now: Instant)
    ensures Select(high, normal, 0, next, now) == Selected([], [], high, normal)
  {
  }

  lemma ContinuesStart(whole: Selected)
    ensures Continues(whole, [], [], whole)
  {
  }

  lemma ContinuesEnd(
    whole: Selected, taken: seq<SimulationRequest>, dropped: seq<SimulationRequest>,
    high: seq<SimulationRequest>, normal: seq<SimulationRequest>)
    requires Continues(whole, taken, dropped, Selected([], [], high, normal))
    ensures whole == Selected(taken, dropped, high, normal)
  {
    assert taken + [] == taken;
    assert dropped + [] == dropped;
  }
}
