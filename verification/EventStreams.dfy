/** The reconnecting SSE client stream. The network is a script: what each
    connection delivers and how each further connection attempt ends. */
module EventStreams {
  import opened Common

  /** Errors of the stream; texts stand for the wrapped library errors. */
  datatype SseError =
    | SerdeJsonError(text: string)
    | Http(text: string)
    | RetryError(text: string)
    | MaxRetriesExceeded(max: nat)

  /** What one poll of an open connection yields; the end of the list is the
      end of the stream. `wait` is how many polls of the reconnect it asks for
      are not ready, sleeping and connecting included. */
  datatype Frame =
    | Event(item: string)
    | Failure(error: SseError)
    | Retry(wait: nat)
    | NotReady

  /** How a connection attempt ends. */
  datatype Attempt = Refused(text: string) | Connected(frames: seq<Frame>)

  type Item = Result<string, SseError>

  /** The part of a stream that a pending reconnect works on a copy of. */
  datatype Inner = Inner(numRetries: nat, endpoint: string)

  datatype State =
    | End
    | Retrying(inner: Inner, wait: nat)
    | Active(frames: seq<Frame>)

  /** One connection attempt: where to, with which count of earlier retries, and by whom. */
  datatype Dial = Dial(endpoint: string, numRetries: nat, manual: bool)

  /** The attempt that follows; a network with nothing left refuses. */
  function NextAttempt(network: seq<Attempt>): Attempt {
    if network == [] then Refused("unreachable") else network[0]
  }

  function LaterAttempts(network: seq<Attempt>): seq<Attempt> {
    if network == [] then [] else network[1..]
  }

  /** Is a retry admitted, given how many there were before it? */
  predicate Admits(maxRetries: Option<nat>, numRetries: nat) {
    maxRetries.None? || numRetries < maxRetries.value
  }

  // ---- What the stream should deliver ----

  /** The items of a connection up to its first `Retry` frame. */
  function Segment(frames: seq<Frame>): seq<Item> {
    if frames == [] then []
    else match frames[0]
      case Event(item) => [Ok(item)] + Segment(frames[1..])
      case Failure(error) => [Err(error)] + Segment(frames[1..])
      case Retry(_) => []
      case NotReady => Segment(frames[1..])
  }

  /** Does the connection ask to reconnect? */
  predicate AsksRetry(frames: seq<Frame>) {
    frames != [] && (frames[0].Retry? || AsksRetry(frames[1..]))
  }

  /** What follows a `Retry` frame: the next connection, or one final error.
      `copied` is the retry count copied at that frame; the connections after
      the next one copy the stream's own count, which reconnecting leaves alone. */
  function AfterRetry(network: seq<Attempt>, maxRetries: Option<nat>, copied: nat, numRetries: nat): seq<Item>
    decreases |network|, 0
  {
    if !Admits(maxRetries, copied) then [Err(MaxRetriesExceeded(maxRetries.value))]
    else match NextAttempt(network)
      case Refused(text) => [Err(RetryError(text))]
      case Connected(frames) => Flattened(frames, network[1..], maxRetries, numRetries)
  }

  /** Everything an open connection and its successors deliver: one segment per
      connection, as long as each asks to reconnect. */
  function Flattened(frames: seq<Frame>, network: seq<Attempt>, maxRetries: Option<nat>, numRetries: nat): seq<Item>
    decreases |network|, 1
  {
    Segment(frames) + (if AsksRetry(frames) then AfterRetry(network, maxRetries, numRetries, numRetries) else [])
  }

  // ---- One frame at a time ----

  lemma FlattenedItem(
    item: Item, rest: seq<Item>, tail: seq<Frame>, network: seq<Attempt>, maxRetries: Option<nat>, numRetries: nat)
    requires rest == Segment(tail)
    ensures [item] + Flattened(tail, network, maxRetries, numRetries)
         == ([item] + rest) + (if AsksRetry(tail) then AfterRetry(network, maxRetries, numRetries, numRetries) else [])
  {
  }

  /** What one frame contributes. */
  lemma FlattenedFront(frames: seq<Frame>, network: seq<Attempt>, maxRetries: Option<nat>, numRetries: nat)
    ensures frames == [] ==> Flattened(frames, network, maxRetries, numRetries) == []
    ensures frames != [] ==>
              var whole := Flattened(frames, network, maxRetries, numRetries);
              var tail := Flattened(frames[1..], network, maxRetries, numRetries);
              match frames[0]
              case Event(item) => whole == [Ok(item)] + tail
              case Failure(error) => whole == [Err(error)] + tail
              case Retry(_) => whole == AfterRetry(network, maxRetries, numRetries, numRetries)
              case NotReady => whole == tail
  {
    hide AfterRetry;
    if frames != [] {
      match frames[0]
      case Event(item) =>
        FlattenedItem(Ok(item), Segment(frames[1..]), frames[1..], network, maxRetries, numRetries);
      case Failure(error) =>
        FlattenedItem(Err(error), Segment(frames[1..]), frames[1..], network, maxRetries, numRetries);
      case Retry(_) =>
      case NotReady =>
    }
  }

  /** The frames without the polls that are not ready. */
  function Readied(frames: seq<Frame>): seq<Frame> {
    if frames == [] then []
    else (if frames[0].NotReady? then [] else [frames[0]]) + Readied(frames[1..])
  }

  function ReadiedAttempt(a: Attempt): Attempt {
    if a.Connected? then Connected(Readied(a.frames)) else a
  }

  function ReadiedNetwork(network: seq<Attempt>): seq<Attempt> {
    if network == [] then [] else [ReadiedAttempt(network[0])] + ReadiedNetwork(network[1..])
  }

  lemma {:induction false} ReadiedSegment(frames: seq<Frame>)
    ensures Segment(Readied(frames)) == Segment(frames)
    ensures AsksRetry(Readied(frames)) <==> AsksRetry(frames)
  {
    if frames != [] {
      ReadiedSegment(frames[1..]);
      if frames[0].NotReady? {
        assert Readied(frames) == Readied(frames[1..]);
      } else {
        assert Readied(frames)[1..] == Readied(frames[1..]);
      }
    }
  }

  lemma ReadiedNext(network: seq<Attempt>)
    ensures NextAttempt(ReadiedNetwork(network)) == ReadiedAttempt(NextAttempt(network))
    ensures LaterAttempts(ReadiedNetwork(network)) == ReadiedNetwork(LaterAttempts(network))
  {
  }

  /** Polls that are not ready, on any connection of the script, change nothing
      of what is delivered. */
  lemma {:induction false} PendingChangesNothing(
    frames: seq<Frame>, network: seq<Attempt>, maxRetries: Option<nat>, numRetries: nat)
    ensures Flattened(Readied(frames), ReadiedNetwork(network), maxRetries, numRetries)
         == Flattened(frames, network, maxRetries, numRetries)
    decreases |network|
  {
    ReadiedSegment(frames);
    ReadiedNext(network);
    AfterRetryUnfolds(network, maxRetries, numRetries, numRetries);
    AfterRetryUnfolds(ReadiedNetwork(network), maxRetries, numRetries, numRetries);
    hide AfterRetry, Segment, AsksRetry, Readied, ReadiedNetwork;
    if network != [] && network[0].Connected? {
      PendingChangesNothing(network[0].frames, network[1..], maxRetries, numRetries);
    }
  }

  /** Frames behind a connection's first `Retry` frame are never delivered. */
  lemma BehindRetryIsLost(
    before: seq<Frame>, wait: nat, behind: seq<Frame>,
    network: seq<Attempt>, maxRetries: Option<nat>, numRetries: nat)
    ensures Flattened(before + [Retry(wait)] + behind, network, maxRetries, numRetries)
         == Flattened(before + [Retry(wait)], network, maxRetries, numRetries)
  {
    SegmentStops(before, wait, behind);
    SegmentStops(before, wait, []);
    assert before + [Retry(wait)] + [] == before + [Retry(wait)];
  }

  lemma {:induction false} SegmentStops(before: seq<Frame>, wait: nat, behind: seq<Frame>)
    ensures Segment(before + [Retry(wait)] + behind) == Segment(before)
    ensures AsksRetry(before + [Retry(wait)] + behind)
  {
    var frames := before + [Retry(wait)] + behind;
    if before == [] {
      assert frames[0] == Retry(wait);
    } else {
      assert frames[1..] == before[1..] + [Retry(wait)] + behind;
      SegmentStops(before[1..], wait, behind);
    }
  }

  /** The connections that are opened automatically, in order. */
  function Opened(frames: seq<Frame>, network: seq<Attempt>, maxRetries: Option<nat>, numRetries: nat): seq<seq<Frame>>
    decreases |network|
  {
    if AsksRetry(frames) && Admits(maxRetries, numRetries) && NextAttempt(network).Connected?
    then [frames] + Opened(NextAttempt(network).frames, network[1..], maxRetries, numRetries)
    else [frames]
  }

  /** They are the first one and then those of the network, in order: each but
      the last asked to reconnect, was admitted, and was followed by the next. */
  lemma {:induction false} OpenedMeaning(
    frames: seq<Frame>, network: seq<Attempt>, maxRetries: Option<nat>, numRetries: nat)
    ensures var conns := Opened(frames, network, maxRetries, numRetries);
            && 0 < |conns| <= |network| + 1 && conns[0] == frames
            && (forall i :: 0 <= i < |conns| - 1 ==>
                  AsksRetry(conns[i]) && network[i] == Connected(conns[i + 1]))
            && (|conns| > 1 ==> Admits(maxRetries, numRetries))
            && (AsksRetry(conns[|conns| - 1]) && Admits(maxRetries, numRetries) ==>
                  |conns| == |network| + 1 || network[|conns| - 1].Refused?)
    decreases |network|
  {
    hide AsksRetry;
    if AsksRetry(frames) && Admits(maxRetries, numRetries) && NextAttempt(network).Connected? {
      var next := NextAttempt(network).frames;
      OpenedMeaning(next, network[1..], maxRetries, numRetries);
      var rest := Opened(next, network[1..], maxRetries, numRetries);
      var conns := [frames] + rest;
      forall i | 0 <= i < |conns| - 1
        ensures AsksRetry(conns[i]) && network[i] == Connected(conns[i + 1])
      {
        if i > 0 {
          assert conns[i] == rest[i - 1] && conns[i + 1] == rest[i - 1 + 1] && network[i] == network[1..][i - 1];
        }
      }
      assert |rest| < |network| ==> network[1..][|rest| - 1] == network[|rest|];
    }
  }

  /** The segments of a list of connections, one after the other. */
  function Segments(connections: seq<seq<Frame>>): seq<Item> {
    if connections == [] then [] else Segment(connections[0]) + Segments(connections[1..])
  }

  /** What is delivered after the last connection: nothing, or the error of a failed reconnect. */
  function Ending(frames: seq<Frame>, network: seq<Attempt>, maxRetries: Option<nat>, numRetries: nat): seq<Item>
    decreases |network|
  {
    if !AsksRetry(frames) then []
    else if !Admits(maxRetries, numRetries) then [Err(MaxRetriesExceeded(maxRetries.value))]
    else match NextAttempt(network)
      case Refused(text) => [Err(RetryError(text))]
      case Connected(next) => Ending(next, network[1..], maxRetries, numRetries)
  }

  /** The stream delivers the segments of the connections it opened, one after
      the other, and then the error of the reconnect that failed, if any. */
  lemma {:induction false} FlattenedMeaning(
    frames: seq<Frame>, network: seq<Attempt>, maxRetries: Option<nat>, numRetries: nat)
    ensures Flattened(frames, network, maxRetries, numRetries)
         == Segments(Opened(frames, network, maxRetries, numRetries))
            + Ending(frames, network, maxRetries, numRetries)
    decreases |network|
  {
    hide Segment, AsksRetry;
    var conns := Opened(frames, network, maxRetries, numRetries);
    var ending := Ending(frames, network, maxRetries, numRetries);
    if AsksRetry(frames) && Admits(maxRetries, numRetries) && NextAttempt(network).Connected? {
      var next := NextAttempt(network).frames;
      FlattenedMeaning(next, network[1..], maxRetries, numRetries);
      var rest := Opened(next, network[1..], maxRetries, numRetries);
      assert conns[1..] == rest;
      assert Segment(frames) + (Segments(rest) + ending) == (Segment(frames) + Segments(rest)) + ending;
    } else {
      assert conns == [frames] && conns[1..] == [];
    }
  }

  /** There is a final error exactly when the last connection opened asked to reconnect in vain. */
  lemma {:induction false} EndingMeaning(
    frames: seq<Frame>, network: seq<Attempt>, maxRetries: Option<nat>, numRetries: nat)
    ensures var conns := Opened(frames, network, maxRetries, numRetries);
            var ending := Ending(frames, network, maxRetries, numRetries);
            if !AsksRetry(conns[|conns| - 1]) then ending == []
            else if !Admits(maxRetries, numRetries) then ending == [Err(MaxRetriesExceeded(maxRetries.value))]
            else
              && |conns| - 1 <= |network|
              && var last := NextAttempt(network[|conns| - 1..]);
              last.Refused? && ending == [Err(RetryError(last.text))]
    decreases |network|
  {
    hide AsksRetry;
    if AsksRetry(frames) && Admits(maxRetries, numRetries) && NextAttempt(network).Connected? {
      var next := NextAttempt(network).frames;
      EndingMeaning(next, network[1..], maxRetries, numRetries);
      var n := |Opened(next, network[1..], maxRetries, numRetries)|;
      assert n - 1 <= |network| - 1 ==> network[1..][n - 1..] == network[n..];
    }
  }

  // ---- Which connections are dialed ----

  /** The attempts that follow a `Retry` frame at which `copy` was taken. */
  function DialsAfterRetry(network: seq<Attempt>, maxRetries: Option<nat>, copy: Inner, inner: Inner): seq<Dial>
    decreases |network|, 0
  {
    if !Admits(maxRetries, copy.numRetries) then []
    else
      [Dial(copy.endpoint, copy.numRetries, false)]
      + match NextAttempt(network)
        case Refused(_) => []
        case Connected(frames) => DialsDue(frames, network[1..], maxRetries, inner)
  }

  /** The automatic attempts that an open connection and its successors lead to. */
  function DialsDue(frames: seq<Frame>, network: seq<Attempt>, maxRetries: Option<nat>, inner: Inner): seq<Dial>
    decreases |network|, 1
  {
    if AsksRetry(frames) then DialsAfterRetry(network, maxRetries, inner, inner) else []
  }

  lemma {:induction false} DialsUnfold(network: seq<Attempt>, maxRetries: Option<nat>, copy: Inner, inner: Inner)
    ensures var next, whole := NextAttempt(network), DialsAfterRetry(network, maxRetries, copy, inner);
            var first := [Dial(copy.endpoint, copy.numRetries, false)];
            whole == if !Admits(maxRetries, copy.numRetries) then []
                     else if next.Refused? then first
                     else first + DialsDue(next.frames, LaterAttempts(network), maxRetries, inner)
  {
  }

  /** What one frame contributes to the attempts. */
  lemma {:induction false} DialsFront(
    frames: seq<Frame>, network: seq<Attempt>, maxRetries: Option<nat>, inner: Inner)
    ensures DialsDue(frames, network, maxRetries, inner)
         == if frames == [] then []
            else if frames[0].Retry? then DialsAfterRetry(network, maxRetries, inner, inner)
            else DialsDue(frames[1..], network, maxRetries, inner)
  {
  }

  /** Every automatic attempt uses the stream's own count and endpoint; there is
      one per connection opened after the first, and one more if the last attempt failed. */
  lemma {:induction false} DialsDueMeaning(
    frames: seq<Frame>, network: seq<Attempt>, maxRetries: Option<nat>, inner: Inner)
    ensures var due := DialsDue(frames, network, maxRetries, inner);
            var ending := Ending(frames, network, maxRetries, inner.numRetries);
            && |due| == |Opened(frames, network, maxRetries, inner.numRetries)| - 1
                        + (if ending != [] && ending[0].Err? && ending[0].error.RetryError? then 1 else 0)
            && forall d :: d in due ==> d == Dial(inner.endpoint, inner.numRetries, false)
    decreases |network|
  {
    hide AsksRetry;
    DialsUnfold(network, maxRetries, inner, inner);
    if AsksRetry(frames) && Admits(maxRetries, inner.numRetries) && NextAttempt(network).Connected? {
      DialsDueMeaning(NextAttempt(network).frames, network[1..], maxRetries, inner);
    }
  }

  /** `max_retries` does not bound automatic reconnects: they all use the
      counter as it was, so either none is admitted or every one is. */
  lemma {:induction false} AutomaticReconnectsAreUnbounded(n: nat, maxRetries: Option<nat>, inner: Inner)
    requires Admits(maxRetries, inner.numRetries)
    ensures exists network ::
              && |Opened([Retry(0)], network, maxRetries, inner.numRetries)| == n + 1
              && |DialsDue([Retry(0)], network, maxRetries, inner)| == n + 1
  {
    var network := seq(n, _ => Connected([Retry(0)]));
    EndlessRetry(n, network, maxRetries, inner);
  }

  lemma {:induction false} EndlessRetry(n: nat, network: seq<Attempt>, maxRetries: Option<nat>, inner: Inner)
    requires Admits(maxRetries, inner.numRetries)
    requires |network| == n && forall i :: 0 <= i < n ==> network[i] == Connected([Retry(0)])
    ensures |Opened([Retry(0)], network, maxRetries, inner.numRetries)| == n + 1
    ensures |DialsDue([Retry(0)], network, maxRetries, inner)| == n + 1
  {
    assert [Retry(0)][0].Retry?;
    DialsUnfold(network, maxRetries, inner, inner);
    if n > 0 {
      EndlessRetry(n - 1, network[1..], maxRetries, inner);
    }
  }

  /** The automatic attempts of a stream, and the connections they open, are
      bounded by `max_retries` for every network exactly when none is admitted at all. */
  lemma WhenMaxRetriesBounds(max: nat, inner: Inner)
    ensures (forall frames, network :: |DialsDue(frames, network, Some(max), inner)| <= max)
       <==> !Admits(Some(max), inner.numRetries)
    ensures (forall frames, network :: |Opened(frames, network, Some(max), inner.numRetries)| - 1 <= max)
       <==> !Admits(Some(max), inner.numRetries)
  {
    if Admits(Some(max), inner.numRetries) {
      AutomaticReconnectsAreUnbounded(max + 1, Some(max), inner);
      var network :| && |Opened([Retry(0)], network, Some(max), inner.numRetries)| == max + 2
                     && |DialsDue([Retry(0)], network, Some(max), inner)| == max + 2;
      assert !(|DialsDue([Retry(0)], network, Some(max), inner)| <= max);
      assert !(|Opened([Retry(0)], network, Some(max), inner.numRetries)| - 1 <= max);
    }
  }

  // ---- The answers of successive polls ----

  /** The answers of the polls after a `Retry` frame that asked to wait. */
  function AnswersAfterRetry(
    network: seq<Attempt>, maxRetries: Option<nat>, copied: nat, numRetries: nat, wait: nat): seq<Poll<Option<Item>>>
    decreases |network|, 1, wait
  {
    if wait > 0 then [Pending] + AnswersAfterRetry(network, maxRetries, copied, numRetries, wait - 1)
    else if !Admits(maxRetries, copied) then [Ready(Some(Err(MaxRetriesExceeded(maxRetries.value)))), Ready(None)]
    else match NextAttempt(network)
      case Refused(text) => [Ready(Some(Err(RetryError(text)))), Ready(None)]
      case Connected(frames) => Answers(frames, network[1..], maxRetries, numRetries)
  }

  /** The answers of the polls of an open connection and its successors, up to the first `None`. */
  function Answers(frames: seq<Frame>, network: seq<Attempt>, maxRetries: Option<nat>, numRetries: nat)
    : seq<Poll<Option<Item>>>
    decreases |network|, 2, |frames|
  {
    if frames == [] then [Ready(None)]
    else match frames[0]
      case Event(item) => [Ready(Some(Ok(item)))] + Answers(frames[1..], network, maxRetries, numRetries)
      case Failure(error) => [Ready(Some(Err(error)))] + Answers(frames[1..], network, maxRetries, numRetries)
      case NotReady => [Pending] + Answers(frames[1..], network, maxRetries, numRetries)
      case Retry(wait) => AnswersAfterRetry(network, maxRetries, numRetries, numRetries, wait)
  }

  /** The items among the answers. */
  function ItemsOf(answers: seq<Poll<Option<Item>>>): seq<Item> {
    if answers == [] then []
    else (match answers[0] case Ready(Some(item)) => [item] case _ => []) + ItemsOf(answers[1..])
  }

  lemma ItemsOfFront(first: Poll<Option<Item>>, rest: seq<Poll<Option<Item>>>)
    ensures ItemsOf([first] + rest) == (match first case Ready(Some(item)) => [item] case _ => []) + ItemsOf(rest)
  {
    assert ([first] + rest)[1..] == rest;
  }

  lemma ItemsOfEnd(first: Poll<Option<Item>>)
    ensures ItemsOf([Ready(None)]) == []
    ensures ItemsOf([first, Ready(None)]) == (match first case Ready(Some(item)) => [item] case _ => [])
  {
    assert [first, Ready(None)][1..] == [Ready(None)];
  }

  /** A `Retry` frame costs one pending poll for each it asked to wait, and
      then what follows comes as if it had not asked to wait. */
  lemma {:induction false} WaitsAsAsked(
    network: seq<Attempt>, maxRetries: Option<nat>, copied: nat, numRetries: nat, wait: nat)
    ensures AnswersAfterRetry(network, maxRetries, copied, numRetries, wait)
         == seq(wait, _ => Pending) + AnswersAfterRetry(network, maxRetries, copied, numRetries, 0)
  {
    var pending: seq<Poll<Option<Item>>> := seq(wait, _ => Pending);
    if wait > 0 {
      WaitsAsAsked(network, maxRetries, copied, numRetries, wait - 1);
      assert pending == [Pending] + seq(wait - 1, _ => Pending);
    } else {
      assert pending == [];
    }
  }

  lemma {:induction false} AnswersAfterRetryDeliver(
    network: seq<Attempt>, maxRetries: Option<nat>, copied: nat, numRetries: nat, wait: nat)
    ensures ItemsOf(AnswersAfterRetry(network, maxRetries, copied, numRetries, wait))
         == AfterRetry(network, maxRetries, copied, numRetries)
    decreases |network|, 1, wait
  {
    hide Flattened, ItemsOf;
    if wait > 0 {
      AnswersAfterRetryDeliver(network, maxRetries, copied, numRetries, wait - 1);
      ItemsOfFront(Pending, AnswersAfterRetry(network, maxRetries, copied, numRetries, wait - 1));
    } else if !Admits(maxRetries, copied) {
      ItemsOfEnd(Ready(Some(Err(MaxRetriesExceeded(maxRetries.value)))));
    } else {
      match NextAttempt(network)
      case Refused(text) => ItemsOfEnd(Ready(Some(Err(RetryError(text)))));
      case Connected(frames) => AnswersDeliver(frames, network[1..], maxRetries, numRetries);
    }
  }

  /** The items among the answers are what the stream delivers. */
  lemma {:induction false} AnswersDeliver(
    frames: seq<Frame>, network: seq<Attempt>, maxRetries: Option<nat>, numRetries: nat)
    ensures ItemsOf(Answers(frames, network, maxRetries, numRetries))
         == Flattened(frames, network, maxRetries, numRetries)
    decreases |network|, 2, |frames|
  {
    FlattenedFront(frames, network, maxRetries, numRetries);
    hide Flattened, ItemsOf, AfterRetry, AnswersAfterRetry;
    if frames == [] {
      ItemsOfEnd(Pending);
    } else if frames[0].Retry? {
      AnswersAfterRetryDeliver(network, maxRetries, numRetries, numRetries, frames[0].wait);
    } else {
      var rest := Answers(frames[1..], network, maxRetries, numRetries);
      AnswersDeliver(frames[1..], network, maxRetries, numRetries);
      match frames[0]
      case Event(item) => ItemsOfFront(Ready(Some(Ok(item))), rest);
      case Failure(error) => ItemsOfFront(Ready(Some(Err(error))), rest);
      case NotReady => ItemsOfFront(Pending, rest);
    }
  }

  lemma AnswersWait(network: seq<Attempt>, maxRetries: Option<nat>, copied: nat, numRetries: nat, wait: nat)
    requires wait > 0
    ensures AnswersAfterRetry(network, maxRetries, copied, numRetries, wait)
         == [Pending] + AnswersAfterRetry(network, maxRetries, copied, numRetries, wait - 1)
  {
  }

  lemma AnswersUnfold(network: seq<Attempt>, maxRetries: Option<nat>, copied: nat, numRetries: nat)
    ensures var next, whole := NextAttempt(network), AnswersAfterRetry(network, maxRetries, copied, numRetries, 0);
            whole == if !Admits(maxRetries, copied) then
                       [Ready(Some(Err(MaxRetriesExceeded(maxRetries.value)))), Ready(None)]
                     else if next.Refused? then
                       [Ready(Some(Err(RetryError(next.text)))), Ready(None)]
                     else
                       Answers(next.frames, LaterAttempts(network), maxRetries, numRetries)
  {
  }

  // ---- How long a stream can be polled ----

  function FrameWeight(): Frame -> nat {
    (f: Frame) => if f.Retry? then f.wait + 2 else 1
  }

  function AttemptWeight(): Attempt -> nat {
    (a: Attempt) => if a.Connected? then 2 + Sum(a.frames, FrameWeight()) else 0
  }

  function IsManual(): Dial -> nat {
    (d: Dial) => if d.manual then 1 else 0
  }

  lemma AheadUnfolds(frames: seq<Frame>, network: seq<Attempt>)
    ensures frames != [] ==> Sum(frames, FrameWeight()) == FrameWeight()(frames[0]) + Sum(frames[1..], FrameWeight())
    ensures Sum(network, AttemptWeight())
         == AttemptWeight()(NextAttempt(network)) + Sum(LaterAttempts(network), AttemptWeight())
  {
  }

  lemma {:induction false} AfterRetryUnfolds(
    network: seq<Attempt>, maxRetries: Option<nat>, copied: nat, numRetries: nat)
    ensures var next, whole := NextAttempt(network), AfterRetry(network, maxRetries, copied, numRetries);
            whole == if !Admits(maxRetries, copied) then [Err(MaxRetriesExceeded(maxRetries.value))]
                     else if next.Refused? then [Err(RetryError(next.text))]
                     else Flattened(next.frames, LaterAttempts(network), maxRetries, numRetries)
  {
  }

  /** The connection attempts made by hand. */
  function Manual(dials: seq<Dial>): nat { Sum(dials, IsManual()) }

  lemma ManualAppend(dials: seq<Dial>, from: nat, d: Dial)
    requires from <= |dials|
    ensures Manual((dials + [d])[from..]) == Manual(dials[from..]) + (if d.manual then 1 else 0)
  {
    assert (dials + [d])[from..] == dials[from..] + [d];
    SumAppend(dials[from..], d, IsManual());
  }

  lemma MovesOn<T>(done: seq<T>, x: T, rest: seq<T>)
    ensures done + ([x] + rest) == (done + [x]) + rest
  {
  }

  class EventStream {
    const maxRetries: Option<nat>
    var inner: Inner
    var state: Option<State>
    var network: seq<Attempt>  // how the attempts still to come will end

    ghost var dials: seq<Dial>  // all connection attempts after the first
    ghost var resetAt: nat      // how many of them came before the last reset

    /** Retry budget: nothing is dialed beyond the maximum, and the manual
        attempts since the last reset are the counted retries as far as the
        maximum allows. */
    ghost predicate Valid()
      reads this
    {
      && resetAt <= |dials|
      && Manual(dials[resetAt..])
         == (if maxRetries.Some? && maxRetries.value < inner.numRetries then maxRetries.value else inner.numRetries)
      && forall d :: d in dials ==> Admits(maxRetries, d.numRetries)
    }

    /** What the stream still delivers if nobody intervenes. */
    ghost function Undelivered(): seq<Item>
      reads this
    {
      match state
      case None => []
      case Some(End) => []
      case Some(Retrying(copy, _)) => AfterRetry(network, maxRetries, copy.numRetries, inner.numRetries)
      case Some(Active(frames)) => Flattened(frames, network, maxRetries, inner.numRetries)
    }

    /** The connection attempts the stream still makes if nobody intervenes. */
    ghost function Planned(): seq<Dial>
      reads this
    {
      match state
      case None => []
      case Some(End) => []
      case Some(Retrying(copy, _)) => DialsAfterRetry(network, maxRetries, copy, inner)
      case Some(Active(frames)) => DialsDue(frames, network, maxRetries, inner)
    }

    /** The answers of the polls to come, up to the first `None`, if nobody intervenes. */
    ghost function Upcoming(): seq<Poll<Option<Item>>>
      reads this
    {
      match state
      case None => []
      case Some(End) => [Ready(None)]
      case Some(Retrying(copy, wait)) => AnswersAfterRetry(network, maxRetries, copy.numRetries, inner.numRetries, wait)
      case Some(Active(frames)) => Answers(frames, network, maxRetries, inner.numRetries)
    }

    /** A bound on how often the stream can be polled until it ends. */
    ghost function Ahead(): nat
      reads this
    {
      Sum(network, AttemptWeight()) +
      match state
      case None => 0
      case Some(End) => 0
      case Some(Retrying(_, wait)) => 1 + wait
      case Some(Active(frames)) => 2 + Sum(frames, FrameWeight())
    }

    constructor (endpoint: string, maxRetries: Option<nat>, frames: seq<Frame>, network: seq<Attempt>)
      ensures Valid() && state == Some(Active(frames)) && this.network == network
      ensures inner == Inner(0, endpoint) && this.maxRetries == maxRetries && dials == []
    {
      this.maxRetries, this.network := maxRetries, network;
      inner := Inner(0, endpoint);
      state := Some(Active(frames));
      dials, resetAt := [], 0;
    }

    /** Resets all retry attempts. */
    method ResetRetries()
      requires Valid()
      modifies this`inner, this`resetAt
      ensures Valid()
      ensures inner == old(inner).(numRetries := 0) && resetAt == |dials|
    {
      inner := inner.(numRetries := 0);
      resetAt := |dials|;
    }

    /** One counted retry on behalf of `copy`: it fails without dialing when
        the count is past the maximum. */
    method Redial(copy: Inner, ghost manual: bool) returns (counted: Inner, r: Result<seq<Frame>, SseError>)
      requires resetAt <= |dials|
      modifies this`network, this`dials
      ensures resetAt <= |dials|
      ensures Manual(dials[resetAt..]) == Manual(old(dials[resetAt..]))
                                          + (if manual && Admits(maxRetries, copy.numRetries) then 1 else 0)
      ensures counted == copy.(numRetries := copy.numRetries + 1)
      ensures if Admits(maxRetries, copy.numRetries) then
                && network == LaterAttempts(old(network))
                && dials == old(dials) + [Dial(copy.endpoint, copy.numRetries, manual)]
                && r == (match NextAttempt(old(network))
                         case Refused(text) => Err(RetryError(text))
                         case Connected(frames) => Ok(frames))
              else
                && network == old(network)
                && dials == old(dials)
                && r == Err(MaxRetriesExceeded(maxRetries.value))
    {
      counted := copy.(numRetries := copy.numRetries + 1);
      if maxRetries.Some? {
        if counted.numRetries > maxRetries.value {
          return counted, Err(MaxRetriesExceeded(maxRetries.value));
        }
      }
      ManualAppend(dials, resetAt, Dial(copy.endpoint, copy.numRetries, manual));
      dials := dials + [Dial(copy.endpoint, copy.numRetries, manual)];
      var attempt := NextAttempt(network);
      network := LaterAttempts(network);
      match attempt {
        case Refused(text) => r := Err(RetryError(text));
        case Connected(frames) => r := Ok(frames);
      }
    }

    /** Retries the stream by hand: counted, and the state changes only on success. */
    method Retry() returns (r: Result<(), SseError>)
      requires Valid()
      modifies this`inner, this`state, this`network, this`dials
      ensures Valid() && resetAt == old(resetAt)
      ensures inner == old(inner).(numRetries := old(inner.numRetries) + 1)
      ensures r.Ok? <==> Admits(maxRetries, old(inner.numRetries)) && NextAttempt(old(network)).Connected?
      ensures r.Ok? ==> state == Some(Active(NextAttempt(old(network)).frames)) && network == old(network)[1..]
      ensures r.Err? ==> state == old(state)
      ensures !Admits(maxRetries, old(inner.numRetries)) ==>
                r == Err(MaxRetriesExceeded(maxRetries.value)) && network == old(network)
      ensures Admits(maxRetries, old(inner.numRetries)) && NextAttempt(old(network)).Refused? ==>
                r == Err(RetryError(NextAttempt(old(network)).text)) && network == LaterAttempts(old(network))
      ensures r.Err? && Admits(maxRetries, old(inner.numRetries)) ==> network == LaterAttempts(old(network))
      ensures dials == old(dials) + (if Admits(maxRetries, old(inner.numRetries))
                                     then [Dial(old(inner.endpoint), old(inner.numRetries), true)] else [])
    {
      hide Manual;
      var st;
      inner, st := Redial(inner, true);
      match st {
        case Err(e) => r := Err(e);
        case Ok(frames) =>
          state := Some(Active(frames));
          r := Ok(());
      }
    }

    /** The same at another endpoint, which is kept even when the retry fails. */
    method RetryWith(endpoint: string) returns (r: Result<(), SseError>)
      requires Valid()
      modifies this`inner, this`state, this`network, this`dials
      ensures Valid() && resetAt == old(resetAt)
      ensures inner == Inner(old(inner.numRetries) + 1, endpoint)
      ensures r.Ok? <==> Admits(maxRetries, old(inner.numRetries)) && NextAttempt(old(network)).Connected?
      ensures r.Ok? ==> state == Some(Active(NextAttempt(old(network)).frames)) && network == old(network)[1..]
      ensures r.Err? ==> state == old(state)
      ensures !Admits(maxRetries, old(inner.numRetries)) ==>
                r == Err(MaxRetriesExceeded(maxRetries.value)) && network == old(network)
      ensures Admits(maxRetries, old(inner.numRetries)) && NextAttempt(old(network)).Refused? ==>
                r == Err(RetryError(NextAttempt(old(network)).text)) && network == LaterAttempts(old(network))
      ensures dials == old(dials) + (if Admits(maxRetries, old(inner.numRetries))
                                     then [Dial(endpoint, old(inner.numRetries), true)] else [])
    {
      inner := inner.(endpoint := endpoint);
      r := Retry();
    }

    /** A pending reconnect that is due: it becomes the new connection, or one
        last error. */
    method FinishRetry(copy: Inner) returns (r: Result<(), SseError>)
      requires Valid() && state.None?
      modifies this`state, this`network, this`dials
      ensures Valid()
      ensures match r
              case Ok(_) => state.Some? && state.value.Active?
                            && Undelivered() == old(AfterRetry(network, maxRetries, copy.numRetries, inner.numRetries))
              case Err(e) => state == Some(End)
                             && [Err(e)] == old(AfterRetry(network, maxRetries, copy.numRetries, inner.numRetries))
      ensures var before := old(AnswersAfterRetry(network, maxRetries, copy.numRetries, inner.numRetries, 0));
              match r
              case Ok(_) => Upcoming() == before
              case Err(e) => before == [Ready(Some(Err(e)))] + Upcoming()
      ensures Ahead() <= old(Sum(network, AttemptWeight()))
      ensures dials == old(dials) + (if Admits(maxRetries, copy.numRetries)
                                     then [Dial(copy.endpoint, copy.numRetries, false)] else [])
      ensures dials + Planned() == old(dials) + old(DialsAfterRetry(network, maxRetries, copy, inner))
    {
      hide Manual, Sum, Flattened, AfterRetry, Segment, AsksRetry, DialsDue, DialsAfterRetry, Answers, AnswersAfterRetry;
      AfterRetryUnfolds(network, maxRetries, copy.numRetries, inner.numRetries);
      AnswersUnfold(network, maxRetries, copy.numRetries, inner.numRetries);
      DialsUnfold(network, maxRetries, copy, inner);
      AheadUnfolds([], network);
      var counted, st := Redial(copy, false);
      match st {
        case Ok(frames) =>
          state := Some(Active(frames));
          r := Ok(());
        case Err(e) =>
          state := Some(End);
          r := Err(e);
      }
    }

    /** One poll of the open connection: the answer to the caller, or none when
        it asked to reconnect. */
    method PollActive(frames: seq<Frame>) returns (r: Option<Poll<Option<Item>>>)
      requires Valid() && state.None?
      modifies this`state
      ensures Valid() && state.Some?
      ensures var before := Flattened(frames, network, maxRetries, inner.numRetries);
              match r
              case None => state.value.Retrying? && state.value.inner == inner && Undelivered() == before
              case Some(Pending) => state.value.Active? && Undelivered() == before
              case Some(Ready(Some(item))) => state.value.Active? && before == [item] + Undelivered()
              case Some(Ready(None)) => state == Some(End) && before == []
      ensures r == None <==> frames != [] && frames[0].Retry?
      ensures r == None ==> state == Some(Retrying(inner, frames[0].wait))
      ensures var before := Answers(frames, network, maxRetries, inner.numRetries);
              match r
              case None => Upcoming() == before
              case Some(Ready(None)) => before == [Ready(None)]
              case Some(answer) => before == [answer] + Upcoming()
      ensures Planned() == DialsDue(frames, network, maxRetries, inner)
      ensures Ahead() < Sum(network, AttemptWeight()) + 2 + Sum(frames, FrameWeight())
    {
      hide Manual, Sum, Flattened, AfterRetry, Segment, AsksRetry, DialsDue, DialsAfterRetry, AnswersAfterRetry;
      FlattenedFront(frames, network, maxRetries, inner.numRetries);
      DialsFront(frames, network, maxRetries, inner);
      AheadUnfolds(frames, network);
      if frames == [] {
        state := Some(End);
        return Some(Ready(None));
      }
      match frames[0] {
        case Event(item) =>
          state := Some(Active(frames[1..]));
          r := Some(Ready(Some(Ok(item))));
        case Failure(error) =>
          state := Some(Active(frames[1..]));
          r := Some(Ready(Some(Err(error))));
        case NotReady =>
          state := Some(Active(frames[1..]));
          r := Some(Pending);
        case Retry(wait) =>
          state := Some(Retrying(inner, wait));
          r := None;
      }
    }

    /** The connection attempts of a poll: each on a copy of the stream's count
        and endpoint, where the first may use an older copy. */
    twostate predicate DialsOnCopies()
      requires old(state).Some?
      reads this
    {
      && old(dials) <= dials
      && forall i :: |old(dials)| <= i < |dials| ==>
           || dials[i] == Dial(inner.endpoint, inner.numRetries, false)
           || (&& i == |old(dials)| && old(state).value.Retrying?
               && var copy := old(state).value.inner; dials[i] == Dial(copy.endpoint, copy.numRetries, false))
    }

    /** One poll. An item is the first of those still to be delivered; pending
        changes nothing that will be delivered; `None` comes only when all is
        delivered. The state slot is left empty only by consuming `End`, and
        only then would polling again panic. The retry counter never changes. */
    method PollNext() returns (r: Poll<Option<Item>>)
      requires Valid() && state.Some?
      modifies this`state, this`network, this`dials
      ensures Valid()
      ensures match r
              case Pending => Undelivered() == old(Undelivered())
              case Ready(Some(item)) => old(Undelivered()) == [item] + Undelivered()
              case Ready(None) => old(Undelivered()) == [] && Undelivered() == []
      ensures state.None? <==> old(state) == Some(End)
      ensures old(state) == Some(End) ==> r == Ready(None) && network == old(network) && dials == old(dials)
      ensures r == Ready(None) ==> state.None? || state == Some(End)
      ensures r != Ready(None) ==> Ahead() < old(Ahead())
      ensures r == Ready(None) ==> old(Upcoming()) == [Ready(None)]
      ensures r != Ready(None) ==> old(Upcoming()) == [r] + Upcoming()
      ensures old(state).value.Retrying? && old(state).value.wait > 0 ==>
                && r == Pending && dials == old(dials) && network == old(network)
                && state == Some(Retrying(old(state).value.inner, old(state).value.wait - 1))
      ensures DialsOnCopies()
      ensures dials + Planned() == old(dials) + old(Planned())
      ensures r == Ready(None) ==> Planned() == []
      ensures state.Some? && state.value.Retrying? ==>
                || state.value.inner == inner
                || (old(state).value.Retrying? && state.value.inner == old(state).value.inner)
    {
      hide Manual, Sum, Flattened, AfterRetry, Segment, AsksRetry, DialsDue, DialsAfterRetry, Answers, AnswersAfterRetry,
           Admits, NextAttempt, LaterAttempts, FrameWeight, AttemptWeight, IsManual;
      ghost var first := true;
      while true
        invariant Valid() && state.Some?
        invariant Undelivered() == old(Undelivered())
        invariant first ==> state == old(state) && network == old(network) && dials == old(dials)
        invariant !first ==> old(state) != Some(End) && state != Some(End) && Ahead() < old(Ahead())
        invariant Upcoming() == old(Upcoming())
        invariant !first && old(state).value.Retrying? ==> old(state).value.wait == 0
        invariant DialsOnCopies()
        invariant dials + Planned() == old(dials) + old(Planned())
        invariant state.value.Retrying? ==> state.value.inner == inner || first
        decreases Ahead()
      {
        var taken := state.value;
        state := None;
        match taken {
          case End =>
            return Ready(None);
          case Retrying(copy, wait) =>
            if wait > 0 {
              AnswersWait(network, maxRetries, copy.numRetries, inner.numRetries, wait);
              state := Some(Retrying(copy, wait - 1));
              return Pending;
            }
            var st := FinishRetry(copy);
            if st.Err? {
              return Ready(Some(Err(st.error)));
            }
          case Active(frames) =>
            var answer := PollActive(frames);
            if answer.Some? {
              return answer.value;
            }
        }
        first := false;
      }
    }

    /** A caller that polls until the first `None` gets exactly the flattened
        script, makes exactly the planned attempts, and never polls a stream whose
        state slot is empty. `answers` are the answers of its polls. */
    method Collect() returns (items: seq<Item>, ghost answers: seq<Poll<Option<Item>>>)
      requires Valid() && state.Some?
      modifies this`state, this`network, this`dials
      ensures Valid()
      ensures items == old(Undelivered())
      ensures Undelivered() == []
      ensures dials == old(dials) + old(Planned())
      ensures answers == old(Upcoming())
    {
      hide Manual, Sum, Flattened, AfterRetry, Segment, AsksRetry, DialsDue, DialsAfterRetry, Answers, AnswersAfterRetry,
           Admits, DialsOnCopies, Undelivered, Planned, Upcoming, Ahead, Valid;
      items, answers := [], [];
      while true
        invariant Valid() && state.Some?
        invariant items + Undelivered() == old(Undelivered())
        invariant answers + Upcoming() == old(Upcoming())
        invariant dials + Planned() == old(dials) + old(Planned())
        decreases Ahead()
      {
        var r := PollNext();
        if r != Ready(None) {
          MovesOn(answers, r, Upcoming());
        }
        answers := answers + [r];
        match r {
          case Pending =>
          case Ready(None) =>
            return;
          case Ready(Some(item)) =>
            MovesOn(items, item, Undelivered());
            items := items + [item];
        }
      }
    }
  }
}
