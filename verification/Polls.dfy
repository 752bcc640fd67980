/** What one poll of the service does, given what it finds ready: which messages
    and completions each of its rounds handles, what it selects, and when it
    stops. */
module Polls {
  import opened Common
  import opened Requests
  import opened Selection
  import opened Machine
  import opened Rounds

  /** A simulation that is ready: where it stands among those in flight when its
      turn comes, and how it ended. */
  datatype Finish = Finish(k: nat, outcome: BundleSimulationOutcome)

  /** What a round finds ready: how many messages the channel hands over before
      it answers pending, which simulations the set of those in flight hands
      over before it does, and the time. */
  datatype Round = Round(messages: nat, finished: seq<Finish>, now: Instant)

  /** How many of the finished simulations are there: up to the first that is
      not among those in flight, of which there are `flying`. */
  function Known(finished: seq<Finish>, flying: nat): nat {
    if finished == [] || finished[0].k >= flying then 0 else 1 + Known(finished[1..], flying - 1)
  }

  lemma {:induction false} KnownMeaning(finished: seq<Finish>, flying: nat)
    ensures var n := Known(finished, flying);
            && n <= |finished| && n <= flying
            && (forall j :: 0 <= j < n ==> finished[j].k < flying - j)
            && (n < |finished| ==> finished[n].k >= flying - n)
    decreases |finished|
  {
    if finished != [] && finished[0].k < flying {
      KnownMeaning(finished[1..], flying - 1);
      var n := Known(finished, flying);
      assert forall j :: 1 <= j < n ==> finished[j] == finished[1..][j - 1];
      assert n < |finished| ==> finished[n] == finished[1..][n - 1];
    }
  }

  function Receives(n: nat): seq<Action> { seq(n, _ => Receive) }

  function Completes(finished: seq<Finish>): seq<Action> {
    seq(|finished|, j requires 0 <= j < |finished| => Complete(finished[j].k, finished[j].outcome))
  }

  lemma NoReceives(h: seq<Action>)
    ensures h == h + Receives(0)
  {
  }

  lemma ReceivesNext(h: seq<Action>, n: nat)
    ensures h + Receives(n + 1) == h + Receives(n) + [Receive]
  {
  }

  lemma NoCompletes(h: seq<Action>, finished: seq<Finish>)
    ensures h == h + Completes(finished[..0])
  {
  }

  lemma CompletesNext(h: seq<Action>, finished: seq<Finish>, n: nat)
    requires n < |finished|
    ensures h + Completes(finished[..n + 1])
         == h + Completes(finished[..n]) + [Complete(finished[n].k, finished[n].outcome)]
  {
  }

  /** The history once a round has handled its messages and completions:
      everything the channel and the set hand over. */
  function Begun(s: State, h: seq<Action>, r: Round): seq<Action> {
    KnownMeaning(r.finished, |s.flying|);
    h + Receives(Min(r.messages, |s.mailbox|)) + Completes(r.finished[..Known(r.finished, |s.flying|)])
  }

  predicate Selects(a: Action, now: Instant) {
    match a
    case Drop(_, t) => t == now
    case Launch(_, t) => t == now
    case _ => false
  }

  /** From `g` on, there are only selections at `now`. */
  predicate OnlySelects(g: seq<Action>, h: seq<Action>, now: Instant) {
    g <= h && forall i :: |g| <= i < |h| ==> Selects(h[i], now)
  }

  /** From `g` on, some request was started. */
  predicate Started(g: seq<Action>, h: seq<Action>) {
    exists i :: |g| <= i < |h| && h[i].Launch?
  }

  /** One round leads from `g` to `h`: it handles exactly the messages and the
      completions handed over, and then selects until nothing is left to do. */
  ghost predicate IsRound(c: Config, block: U64, g: seq<Action>, h: seq<Action>, r: Round)
    requires Legal(c, block, g)
  {
    && Legal(c, block, h)
    && OnlySelects(Begun(Run(c, block, g), g, r), h, r.now)
    && Finished(c, Run(c, block, h), r.now)
  }

  /** One poll passes through the histories `hs`: round by round of the script,
      and it ends with the first round that starts nothing. */
  ghost predicate Polled(c: Config, block: U64, script: nat -> Round, hs: seq<seq<Action>>) {
    && |hs| >= 2
    && (forall i :: 0 <= i < |hs| ==> Legal(c, block, hs[i]))
    && (forall i :: 0 <= i < |hs| - 1 ==> IsRound(c, block, hs[i], hs[i + 1], script(i)))
    && (forall i :: 0 <= i < |hs| - 1 ==> (Started(hs[i], hs[i + 1]) <==> i < |hs| - 2))
  }

  lemma OnlySelectsMore(g: seq<Action>, h: seq<Action>, k: seq<Action>, now: Instant)
    requires OnlySelects(g, h, now) && OnlySelects(h, k, now)
    ensures OnlySelects(g, k, now)
    ensures Started(g, k) <==> Started(g, h) || Started(h, k)
  {
    if i :| |g| <= i < |h| && h[i].Launch? {
      assert k[i].Launch?;
    }
    if i :| |g| <= i < |k| && k[i].Launch? {
      if i < |h| { assert h[i].Launch?; }
    }
  }

  lemma NothingSelected(h: seq<Action>, now: Instant)
    ensures OnlySelects(h, h, now) && !Started(h, h)
  {
  }

  lemma StartedGrows(g: seq<Action>, h: seq<Action>)
    requires g <= h && Started(g, h)
    ensures h != g
  {
  }

  lemma OnlySelectsOne(h: seq<Action>, a: Action, now: Instant)
    requires Selects(a, now)
    ensures OnlySelects(h, h + [a], now)
    ensures Started(h, h + [a]) <==> a.Launch?
  {
    assert (h + [a])[|h|] == a;
  }

  lemma BeginningStartsNothing(s: State, g: seq<Action>, r: Round, h: seq<Action>)
    requires OnlySelects(Begun(s, g, r), h, r.now)
    ensures g <= h
    ensures Started(g, h) <==> Started(Begun(s, g, r), h)
  {
    var b := Begun(s, g, r);
    KnownMeaning(r.finished, |s.flying|);
    assert forall i :: |g| <= i < |b| ==> h[i] == b[i] && !b[i].Launch?;
  }

  lemma NextSelectionIsDetermined(c: Config, s: State, a: Action, a': Action, now: Instant)
    requires Enabled(c, s, a) && Enabled(c, s, a') && Selects(a, now) && Selects(a', now)
    ensures a == a'
  {
    assert a.pos == a'.pos;
  }

  lemma FinishedSelectsNothing(c: Config, s: State, a: Action, now: Instant)
    requires Finished(c, s, now) && Selects(a, now)
    ensures !Enabled(c, s, a)
  {
  }

  /** What a selection at an instant does is determined. */
  lemma {:induction false} SelectionIsDetermined(
    c: Config, block: U64, k: nat, h: seq<Action>, h': seq<Action>, now: Instant)
    requires Legal(c, block, h) && Legal(c, block, h')
    requires k <= |h| && k <= |h'| && h[..k] == h'[..k]
    requires forall i :: k <= i < |h| ==> Selects(h[i], now)
    requires forall i :: k <= i < |h'| ==> Selects(h'[i], now)
    requires Finished(c, Run(c, block, h), now) && Finished(c, Run(c, block, h'), now)
    ensures h == h'
    decreases |h| - k
  {
    hide Run, Legal, Finished, Enabled, Selects;
    LegalPrefix(c, block, h, k);
    LegalPrefix(c, block, h', k);
    if k == |h| {
      assert h[..k] == h;
      if k < |h'| {
        FinishedSelectsNothing(c, Run(c, block, h), h'[k], now);
      }
    } else if k == |h'| {
      assert h'[..k] == h';
      FinishedSelectsNothing(c, Run(c, block, h'), h[k], now);
    } else {
      NextSelectionIsDetermined(c, Run(c, block, h[..k]), h[k], h'[k], now);
      assert h[..k + 1] == h[..k] + [h[k]] && h'[..k + 1] == h'[..k] + [h'[k]];
      SelectionIsDetermined(c, block, k + 1, h, h', now);
    }
  }

  /** A round is determined by the state and by what it finds ready. */
  lemma RoundIsDetermined(c: Config, block: U64, g: seq<Action>, h: seq<Action>, h': seq<Action>, r: Round)
    requires Legal(c, block, g) && IsRound(c, block, g, h, r) && IsRound(c, block, g, h', r)
    ensures h == h'
  {
    hide Run, Legal, Finished, Receives, Completes;
    var b := Begun(Run(c, block, g), g, r);
    assert h[..|b|] == b && h'[..|b|] == b;
    SelectionIsDetermined(c, block, |b|, h, h', r.now);
  }

  lemma {:induction false} PollsAgree(
    c: Config, block: U64, script: nat -> Round, hs: seq<seq<Action>>, hs': seq<seq<Action>>, k: nat)
    requires Polled(c, block, script, hs) && Polled(c, block, script, hs')
    requires hs[0] == hs'[0] && k < |hs| && k < |hs'|
    ensures hs[..k + 1] == hs'[..k + 1]
    ensures k == |hs| - 1 ==> hs == hs'
  {
    hide IsRound, Started, Legal;
    if k == 0 {
      assert hs[..1] == [hs[0]] && hs'[..1] == [hs'[0]];
    } else {
      PollsAgree(c, block, script, hs, hs', k - 1);
      assert hs[k - 1] == hs[..k][k - 1] && hs'[k - 1] == hs'[..k][k - 1];
      assert hs[k] == hs[k - 1 + 1] && hs'[k] == hs'[k - 1 + 1];
      RoundIsDetermined(c, block, hs[k - 1], hs[k], hs'[k], script(k - 1));
      assert hs[..k + 1] == hs[..k] + [hs[k]] && hs'[..k + 1] == hs'[..k] + [hs'[k]];
      assert Started(hs[k - 1], hs[k - 1 + 1]) <==> k - 1 < |hs| - 2;
      assert Started(hs'[k - 1], hs'[k - 1 + 1]) <==> k - 1 < |hs'| - 2;
      if k == |hs| - 1 {
        assert hs[..k + 1] == hs && hs'[..k + 1] == hs';
      }
    }
  }

  /** So is a poll, and with it the number of its rounds: the scheduler makes no
      choice of its own. */
  lemma PollIsDetermined(
    c: Config, block: U64, script: nat -> Round, hs: seq<seq<Action>>, hs': seq<seq<Action>>)
    requires Polled(c, block, script, hs) && Polled(c, block, script, hs') && hs[0] == hs'[0]
    ensures hs == hs'
  {
    if |hs| <= |hs'| {
      PollsAgree(c, block, script, hs, hs', |hs| - 1);
    } else {
      PollsAgree(c, block, script, hs', hs, |hs'| - 1);
    }
  }
}
