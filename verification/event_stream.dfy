/**
 From the database to a reconnecting client: the session's log, the live
 subscription that after-commit hooks feed, the hand-over from history to live
 events, and the client's resumption from the last number it has processed.
 A connection may be cut at any moment, which loses what is on the wire.
 */
module EventStream {
  import opened Options
  import opened SessionLog

  const QUEUE_SIZE: nat := 1000

  /** One run of the server's stream. `queue` is the subscription, `wire` what
      has been sent but not processed. `checked` is the length of the log when
      the session's status was looked at. */
  datatype Stream = Stream(
    after: nat,
    checked: Option<nat>,
    over: bool,
    loaded: bool,
    history: seq<Event>,
    delivered: nat,
    queue: seq<Event>,
    overflow: bool,
    wire: seq<Event>,
    ended: bool)

  /** `fired` is how many events the after-commit hooks have announced. `finished`
      tells that the client has processed a close, `done` that its reader has
      returned: after a stream that ended by itself, and only with a close
      processed. A connection that breaks is made anew, close or not. */
  datatype World = World(
    session: Session,
    fired: nat,
    stream: Option<Stream>,
    last: nat,
    seen: seq<Event>,
    finished: bool,
    done: bool)

  datatype Act =
    | Commit(tx: SessionLog.Act)
    | Fire
    | Connect
    | Check
    | Load
    | Yield
    | Receive
    | End
    | Cut

  function Initial(s: Session): World {
    World(s, |s.log|, None, 0, [], false, false)
  }

  function Offer(t: Stream, e: Event): Stream {
    if t.overflow then t
    else if |t.queue| < QUEUE_SIZE then t.(queue := t.queue + [e])
    else t.(overflow := true)
  }

  function Subscribe(after: nat): Stream {
    Stream(after, None, false, false, [], after, [], false, [], false)
  }

  function After(log: seq<Event>, n: nat): seq<Event> {
    if n <= |log| then log[n..] else []
  }

  function Send(t: Stream, e: Event): Stream {
    t.(wire := t.wire + [e], delivered := e.number, ended := e.data.SessionClosed?)
  }

  /** The stream's next move: the rest of the history, then its end if the
      session was over, then live events above what was delivered. */
  function Advance(t: Stream): Stream {
    if t.ended || !t.loaded then t
    else if t.history != [] then Send(t.(history := t.history[1..]), t.history[0])
    else if t.over || t.overflow then t.(ended := true)
    else if t.queue == [] then t
    else if t.queue[0].number <= t.delivered then t.(queue := t.queue[1..])
    else Send(t.(queue := t.queue[1..]), t.queue[0])
  }

  ghost predicate Enabled(w: World, a: Act) {
    match a
    case Commit(tx) => SessionLog.Enabled(w.session, tx)
    case Fire => w.fired < |w.session.log|
    case Connect => w.stream.None? && !w.done
    case Check => w.stream.Some? && w.stream.value.checked.None?
    case Load => w.stream.Some? && w.stream.value.checked.Some? && !w.stream.value.loaded
    case Yield => w.stream.Some?
    case Receive => w.stream.Some? && w.stream.value.wire != []
    case End => w.stream.Some? && w.stream.value.ended && w.stream.value.wire == []
    case Cut => w.stream.Some?
  }

  ghost function Step(w: World, a: Act): World
    requires Enabled(w, a)
  {
    match a
    case Commit(tx) => w.(session := SessionLog.Step(w.session, tx))
    case Fire =>
      w.(fired := w.fired + 1,
         stream := match w.stream case None => None case Some(t) => Some(Offer(t, w.session.log[w.fired])))
    case Connect => w.(stream := Some(Subscribe(w.last)))
    case Check =>
      w.(stream := Some(w.stream.value.(checked := Some(|w.session.log|), over := !Live(w.session.status))))
    case Load =>
      w.(stream := Some(w.stream.value.(loaded := true, history := After(w.session.log, w.stream.value.after))))
    case Yield => w.(stream := Some(Advance(w.stream.value)))
    case Receive =>
      var t := w.stream.value;
      w.(stream := Some(t.(wire := t.wire[1..])), last := t.wire[0].number, seen := w.seen + [t.wire[0]],
         finished := w.finished || t.wire[0].data.SessionClosed?)
    case End => w.(stream := None, done := w.finished)
    case Cut => w.(stream := None)
  }

  // The invariant.

  predicate NoClose(log: seq<Event>, lo: nat, hi: int) {
    forall k :: lo <= k < hi && k < |log| ==> !log[k].data.SessionClosed?
  }

  /** A contiguous piece of the log. */
  predicate Piece(es: seq<Event>, log: seq<Event>, lo: int) {
    0 <= lo <= lo + |es| <= |log| && es == log[lo..lo + |es|]
  }

  /** The wire continues what the client has, history continues the wire, and
      the queue begins no later than where they end. */
  ghost predicate StreamInv(t: Stream, log: seq<Event>, fired: nat, last: nat) {
    && t.after <= last && t.delivered == last + |t.wire|
    && Piece(t.wire, log, last)
    && (!t.loaded ==> t.after == last && t.wire == [] && t.history == [] && !t.ended)
    && Piece(t.history, log, t.delivered)
    && (!t.overflow ==> Piece(t.queue, log, fired - |t.queue|))
    && (t.loaded && !t.overflow ==> fired - |t.queue| <= t.delivered + |t.history|)
    && (t.checked.Some? ==> t.after <= t.checked.value <= |log|)
    && (t.loaded ==> t.checked.Some?)
    && (t.loaded && !t.ended ==> NoClose(log, t.after, t.delivered))
    && NoClose(log, t.after, t.delivered - 1)
  }

  /** A session found live when it was checked had not been closed by then. */
  ghost predicate CheckInv(t: Stream, log: seq<Event>) {
    t.checked.Some? && !t.over ==> forall k :: 0 <= k < t.checked.value && k < |log| ==> !Closes(log[k])
  }

  ghost predicate Inv(w: World) {
    && SessionLog.Inv(w.session)
    && w.fired <= |w.session.log|
    && w.last <= |w.session.log|
    && w.seen == w.session.log[..w.last]
    && (w.finished <==> exists k :: 0 <= k < w.last && w.session.log[k].data.SessionClosed?)
    && (w.done ==> w.finished && w.stream.None?)
    && (w.stream.Some? ==> StreamInv(w.stream.value, w.session.log, w.fired, w.last))
    && (w.stream.Some? ==> CheckInv(w.stream.value, w.session.log))
  }

  lemma PieceGrows(es: seq<Event>, a: seq<Event>, b: seq<Event>, lo: int)
    requires Piece(es, a, lo) && a <= b
    ensures Piece(es, b, lo)
  {
  }

  lemma LogGrows(t: Stream, a: seq<Event>, b: seq<Event>, fired: nat, last: nat)
    requires StreamInv(t, a, fired, last) && CheckInv(t, a) && a <= b
    ensures StreamInv(t, b, fired, last) && CheckInv(t, b)
  {
    PieceGrows(t.wire, a, b, last);
    PieceGrows(t.history, a, b, t.delivered);
    if !t.overflow { PieceGrows(t.queue, a, b, fired - |t.queue|); }
  }

  lemma CommitInv(w: World, tx: SessionLog.Act)
    requires Inv(w) && SessionLog.Enabled(w.session, tx)
    ensures Inv(Step(w, Commit(tx)))
  {
    SessionLog.StepKeepsInv(w.session, tx);
    StepExtends(w.session, tx);
    var a, b := w.session.log, SessionLog.Step(w.session, tx).log;
    if w.stream.Some? { LogGrows(w.stream.value, a, b, w.fired, w.last); }
  }

  lemma FireInv(t: Stream, log: seq<Event>, fired: nat, last: nat)
    requires StreamInv(t, log, fired, last) && fired < |log|
    ensures StreamInv(Offer(t, log[fired]), log, fired + 1, last)
  {
    if !t.overflow {
      assert t.queue + [log[fired]] == log[fired - |t.queue|..fired + 1];
    }
  }

  lemma SendInv(t: Stream, t1: Stream, log: seq<Event>, fired: nat, last: nat)
    requires SessionLog.Numbered(Session(Pending, false, |log|, 0, [], log))
    requires StreamInv(t, log, fired, last) && t.loaded && !t.ended && t.delivered < |log|
    requires t1 == t.(history := t1.history, queue := t1.queue)
    requires Piece(t1.history, log, t.delivered + 1)
    requires !t.overflow ==>
               Piece(t1.queue, log, fired - |t1.queue|) && fired - |t1.queue| <= t.delivered + 1 + |t1.history|
    ensures StreamInv(Send(t1, log[t.delivered]), log, fired, last)
  {
    assert log[t.delivered].number == t.delivered + 1;
    assert t.wire + [log[t.delivered]] == log[last..t.delivered + 1];
  }

  lemma QueueFront(queue: seq<Event>, log: seq<Event>, a: int)
    requires SessionLog.Numbered(Session(Pending, false, |log|, 0, [], log))
    requires Piece(queue, log, a) && queue != []
    ensures queue[0] == log[a] && log[a].number == a + 1 && Piece(queue[1..], log, a + 1)
  {
  }

  lemma LiveInv(t: Stream, log: seq<Event>, fired: nat, last: nat)
    requires SessionLog.Numbered(Session(Pending, false, |log|, 0, [], log))
    requires StreamInv(t, log, fired, last) && fired <= |log|
    requires t.loaded && !t.ended && t.history == [] && !t.overflow && t.queue != []
    ensures var rest := t.(queue := t.queue[1..]);
            StreamInv(if t.queue[0].number <= t.delivered then rest else Send(rest, t.queue[0]), log, fired, last)
  {
    QueueFront(t.queue, log, fired - |t.queue|);
    if t.queue[0].number > t.delivered {
      SendInv(t, t.(queue := t.queue[1..]), log, fired, last);
    }
  }

  lemma AdvanceInv(t: Stream, log: seq<Event>, fired: nat, last: nat)
    requires SessionLog.Numbered(Session(Pending, false, |log|, 0, [], log))
    requires StreamInv(t, log, fired, last) && fired <= |log|
    ensures StreamInv(Advance(t), log, fired, last)
  {
    if t.loaded && !t.ended {
      if t.history != [] {
        SendInv(t, t.(history := t.history[1..]), log, fired, last);
      } else if !t.over && !t.overflow && t.queue != [] {
        LiveInv(t, log, fired, last);
      }
    }
  }

  lemma ReceiveInv(w: World)
    requires Inv(w) && Enabled(w, Receive)
    ensures Inv(Step(w, Receive))
    ensures Step(w, Receive).last == w.last + 1
  {
    var t, log := w.stream.value, w.session.log;
    assert t.wire[0] == log[w.last] && log[w.last].number == w.last + 1;
    assert Piece(t.wire[1..], log, w.last + 1);
    assert log[..w.last + 1] == log[..w.last] + [log[w.last]];
  }

  lemma CheckedInv(w: World)
    requires Inv(w) && Enabled(w, Check)
    ensures Inv(Step(w, Check))
  {
  }

  lemma FiredInv(w: World)
    requires Inv(w) && Enabled(w, Fire)
    ensures Inv(Step(w, Fire))
  {
    if w.stream.Some? { FireInv(w.stream.value, w.session.log, w.fired, w.last); }
  }

  lemma YieldInv(w: World)
    requires Inv(w) && Enabled(w, Yield)
    ensures Inv(Step(w, Yield))
  {
    AdvanceInv(w.stream.value, w.session.log, w.fired, w.last);
  }

  lemma StepKeepsInv(w: World, a: Act)
    requires Inv(w) && Enabled(w, a)
    ensures Inv(Step(w, a))
  {
    match a
    case Commit(tx) => CommitInv(w, tx);
    case Fire => FiredInv(w);
    case Connect =>
    case Check => CheckedInv(w);
    case Load =>
    case Yield => YieldInv(w);
    case Receive => ReceiveInv(w);
    case End =>
    case Cut =>
  }

  // Whole runs.

  ghost predicate StepAt(tr: seq<World>, acts: seq<Act>, i: nat)
    requires i < |acts| && |tr| == |acts| + 1
  {
    Enabled(tr[i], acts[i]) && tr[i + 1] == Step(tr[i], acts[i])
  }

  ghost predicate Run(tr: seq<World>, acts: seq<Act>) {
    && |tr| == |acts| + 1
    && SessionLog.Inv(tr[0].session) && tr[0] == Initial(tr[0].session)
    && forall i: nat :: i < |acts| ==> StepAt(tr, acts, i)
  }

  lemma {:induction false} RunKeepsInv(tr: seq<World>, acts: seq<Act>, n: nat)
    requires Run(tr, acts) && n <= |acts|
    ensures Inv(tr[n])
  {
    if n > 0 {
      RunKeepsInv(tr, acts, n - 1);
      assert StepAt(tr, acts, n - 1);
      StepKeepsInv(tr[n - 1], acts[n - 1]);
    }
  }

  /** With hooks in commit order: whatever the transactions, the overflows and
      the cuts, the client has processed exactly the first `last` events of the
      log, each once and in order; it counts as finished exactly when one of them
      is a close. */
  lemma ExactlyOnce(tr: seq<World>, acts: seq<Act>, n: nat)
    requires Run(tr, acts) && n <= |acts|
    ensures tr[n].last <= |tr[n].session.log| && tr[n].seen == tr[n].session.log[..tr[n].last]
    ensures tr[n].finished <==> exists k :: 0 <= k < |tr[n].seen| && tr[n].seen[k].data.SessionClosed?
  {
    RunKeepsInv(tr, acts, n);
    var w := tr[n];
    assert forall k :: 0 <= k < w.last ==> w.seen[k] == w.session.log[k];
  }

  // After a close.

  /** The client has processed a close and nothing more is on its way. */
  predicate Stopped(w: World) {
    w.finished && (w.done || (w.stream.Some? && w.stream.value.ended && w.stream.value.wire == []))
  }

  predicate CloseIsNext(w: World) {
    w.stream.Some? && w.stream.value.wire != [] && w.stream.value.wire[0].data.SessionClosed?
  }

  /** Behind a close the client processes nothing more until its connection is
      cut: a stream that ends by itself makes the reader return. */
  lemma {:induction false} StopsAtACloseUntilACut(tr: seq<World>, acts: seq<Act>, i: nat, n: nat)
    requires Run(tr, acts) && i < n <= |acts| && acts[i].Receive?
    requires CloseIsNext(tr[i])
    requires forall k :: i < k < n ==> !acts[k].Cut?
    ensures Stopped(tr[n]) && tr[n].seen == tr[i + 1].seen
  {
    RunKeepsInv(tr, acts, n - 1);
    assert StepAt(tr, acts, n - 1);
    if n > i + 1 { StopsAtACloseUntilACut(tr, acts, i, n - 1); }
  }

  /** The world once a client has made a new connection and its history is read. */
  function Resumed(w: World): World {
    w.(stream := Some(Subscribe(w.last).(
         checked := Some(|w.session.log|), over := !Live(w.session.status),
         loaded := true, history := After(w.session.log, w.last))))
  }

  ghost predicate Steps(tr: seq<World>, acts: seq<Act>) {
    |tr| == |acts| + 1 && forall i: nat :: i < |acts| ==> StepAt(tr, acts, i)
  }

  lemma Reconnects(w: World) returns (tr: seq<World>, acts: seq<Act>)
    requires w.stream.Some? && !w.done
    ensures Steps(tr, acts) && tr[0] == w && tr[|acts|] == Resumed(w)
  {
    var w2 := w.(stream := Some(Subscribe(w.last)));
    tr, acts := [w, w.(stream := None), w2], [Cut, Connect];
    TwoMore(tr, acts, Check, Load, Resumed(w));
    tr, acts := tr + [Step(w2, Check), Resumed(w)], acts + [Check, Load];
  }

  /** Some steps from a world make the client process one event more. */
  ghost predicate ReadsOn(w: World, e: Event) {
    exists tr: seq<World>, acts: seq<Act> ::
      Steps(tr, acts) && tr[0] == w && tr[|acts|].seen == w.seen + [e]
  }

  /** But a cut there makes it read on: whatever the log holds next is processed,
      after the close as before it. A runner may post over a closed session. */
  lemma ReadsOnAfterACut(w: World)
    requires Inv(w) && w.stream.Some? && w.last < |w.session.log|
    ensures ReadsOn(w, w.session.log[w.last])
  {
    var tr, acts := Reconnects(w);
    var w5 := Step(Resumed(w), Yield);
    var w6 := Step(w5, Receive);
    TwoMore(tr, acts, Yield, Receive, w6);
    assert (tr + [w5, w6])[|acts + [Yield, Receive]|] == w6;
  }

  lemma TwoMore(tr: seq<World>, acts: seq<Act>, a: Act, b: Act, end: World)
    requires Steps(tr, acts)
    requires var w := tr[|acts|]; Enabled(w, a) && Enabled(Step(w, a), b) && Step(Step(w, a), b) == end
    ensures Steps(tr + [Step(tr[|acts|], a), end], acts + [a, b])
  {
    var tr', acts' := tr + [Step(tr[|acts|], a), end], acts + [a, b];
    forall i: nat | i < |acts'| ensures StepAt(tr', acts', i) {
      if i < |acts| { assert StepAt(tr, acts, i); }
    }
  }

  /** The server's stream has nothing left to do but to wait. */
  predicate AtRest(t: Stream) {
    t.loaded && !t.ended && Advance(t) == t
  }

  lemma {:induction false} NoneCounted(log: seq<Event>)
    requires forall k :: 0 <= k < |log| ==> !Closes(log[k])
    ensures CloseCount(log) == 0
  {
    if log != [] { NoneCounted(log[..|log| - 1]); }
  }

  lemma RestsIff(t: Stream)
    requires t.loaded && !t.ended
    ensures AtRest(t) <==> t.history == [] && t.queue == [] && !t.over && !t.overflow
  {
    if t.history != [] {
      assert |Advance(t).history| < |t.history|;
    } else if t.over || t.overflow {
      assert Advance(t).ended;
    } else if t.queue != [] {
      assert |Advance(t).queue| < |t.queue|;
    }
  }

  /** A stream that waits, with every hook run, waits over a live session: a
      stream over a closed one always ends. And it has sent the whole log. */
  lemma WaitingMeansLive(tr: seq<World>, acts: seq<Act>, n: nat)
    requires Run(tr, acts) && n <= |acts|
    requires tr[n].stream.Some? && AtRest(tr[n].stream.value) && tr[n].fired == |tr[n].session.log|
    ensures Live(tr[n].session.status)
    ensures tr[n].last + |tr[n].stream.value.wire| == |tr[n].session.log|
  {
    RunKeepsInv(tr, acts, n);
    RestsIff(tr[n].stream.value);
    NeverClosedHere(tr[n]);
  }

  lemma NeverClosedHere(w: World)
    requires Inv(w) && w.stream.Some? && w.fired == |w.session.log|
    requires var t := w.stream.value; t.loaded && !t.ended && t.history == [] && t.queue == [] && !t.over && !t.overflow
    ensures Live(w.session.status) && w.stream.value.delivered == |w.session.log|
  {
    var log := w.session.log;
    forall k | 0 <= k < |log| ensures !Closes(log[k]) {}
    NoneCounted(log);
  }

  /** Why a stream may have ended: it overflowed with a full queue, the session
      was over when it looked, or a close is the last event it sent. */
  ghost predicate EndAt(w: World) {
    w.stream.Some? ==>
      var t := w.stream.value;
      && (t.over ==> !Live(w.session.status))
      && |t.queue| <= 1000 && (t.overflow ==> |t.queue| == 1000)
      && (t.ended ==> t.over || t.overflow || JustClosed(t, w.session.log))
  }

  predicate JustClosed(t: Stream, log: seq<Event>) {
    0 < t.delivered <= |log| && log[t.delivered - 1].data.SessionClosed?
  }

  lemma YieldEndAt(t: Stream, log: seq<Event>, fired: nat, last: nat)
    requires StreamInv(t, log, fired, last) && fired <= |log|
    requires forall k :: 0 <= k < |log| ==> log[k].number == k + 1
    ensures Advance(t).overflow == t.overflow && Advance(t).over == t.over
    ensures |Advance(t).queue| <= |t.queue| && (t.overflow ==> Advance(t).queue == t.queue)
    ensures Advance(t).ended && !t.ended ==> t.over || t.overflow || JustClosed(Advance(t), log)
  {
    if t.loaded && !t.ended {
      if t.history != [] {
        assert t.history[0] == log[t.delivered];
      } else if !t.over && !t.overflow && t.queue != [] {
        assert t.queue[0] == log[fired - |t.queue|];
      }
    }
  }

  lemma StepEndAt(w: World, a: Act)
    requires Inv(w) && EndAt(w) && Enabled(w, a)
    ensures EndAt(Step(w, a))
  {
    if a.Commit? { StepExtends(w.session, a.tx); }
    if a.Yield? { YieldEndAt(w.stream.value, w.session.log, w.fired, w.last); }
  }

  /** A stream over a live session goes on unless it overflows: it ends only when
      a thousand events wait unsent, the session is over, or it sent a close. */
  lemma {:induction false} EndsForAReason(tr: seq<World>, acts: seq<Act>, n: nat)
    requires Run(tr, acts) && n <= |acts|
    ensures EndAt(tr[n])
  {
    if n > 0 {
      EndsForAReason(tr, acts, n - 1);
      RunKeepsInv(tr, acts, n - 1);
      assert StepAt(tr, acts, n - 1);
      StepEndAt(tr[n - 1], acts[n - 1]);
      assert tr[n] == Step(tr[n - 1], acts[n - 1]);
    }
  }

  // Without the order of the hooks.

  /** Numbers rise along the wire and stay at or below the last one sent. */
  ghost predicate Rising(t: Stream) {
    && (forall i, j :: 0 <= i < j < |t.wire| ==> t.wire[i].number < t.wire[j].number)
    && (forall i :: 0 <= i < |t.wire| ==> t.after < t.wire[i].number <= t.delivered)
    && (forall i, j :: 0 <= i < j < |t.history| ==> t.history[i].number < t.history[j].number)
    && (forall i :: 0 <= i < |t.history| ==> t.delivered < t.history[i].number)
    && t.after <= t.delivered
  }

  lemma AdvanceRises(t: Stream)
    requires Rising(t)
    ensures Rising(Advance(t))
  {
  }

  /** Whatever arrives in the subscription, in whatever order, what one stream
      sends keeps strictly rising. */
  lemma RisingWhateverIsOffered(t: Stream, e: Event)
    requires Rising(t)
    ensures Rising(Offer(t, e)) && Rising(Advance(t))
  {
    AdvanceRises(t);
  }

  // The stream as it runs.

  predicate Stale(t: Stream) {
    t.loaded && !t.ended && t.history == [] && !t.over && !t.overflow && t.queue != []
    && t.queue[0].number <= t.delivered
  }

  /** As many moves as only drop what history has already sent. */
  function Skipped(t: Stream): Stream
    decreases |t.queue|
  {
    if Stale(t) then Skipped(Advance(t)) else t
  }

  class Streaming {
    const after: nat
    var checked: Option<nat>
    var over: bool
    var loaded: bool
    var history: seq<Event>
    var delivered: nat
    var queue: seq<Event>
    var overflow: bool
    var wire: seq<Event>
    var ended: bool

    function Abs(): Stream
      reads this
    {
      Stream(after, checked, over, loaded, history, delivered, queue, overflow, wire, ended)
    }

    constructor (after: nat)
      ensures Abs() == Subscribe(after)
    {
      this.after := after;
      checked, over, loaded, history, delivered := None, false, false, [], after;
      queue, overflow, wire, ended := [], false, [], false;
    }

    method Put(e: Event)
      modifies this`queue, this`overflow
      ensures Abs() == Offer(old(Abs()), e)
    {
      if overflow { return; }
      if |queue| < QUEUE_SIZE { queue := queue + [e]; } else { overflow := true; }
    }

    /** Sends what the stream yields next, if anything; false when it ends. */
    method Next() returns (going: bool)
      requires loaded && !ended
      modifies this`history, this`queue, this`wire, this`delivered, this`ended
      ensures Abs() == Advance(Skipped(old(Abs())))
      ensures going <==> !ended
    {
      if history != [] {
        Yield(history[0]);
        history := history[1..];
        return !ended;
      }
      while !over && !overflow && queue != [] && queue[0].number <= delivered
        invariant loaded && !ended && history == []
        invariant Skipped(Abs()) == Skipped(old(Abs()))
        decreases |queue|
      {
        queue := queue[1..];
      }
      if over || overflow {
        ended := true;
      } else if queue != [] {
        Yield(queue[0]);
        queue := queue[1..];
      }
      return !ended;
    }

    method Yield(e: Event)
      modifies this`wire, this`delivered, this`ended
      ensures Abs() == Send(old(Abs()), e)
    {
      wire := wire + [e];
      delivered := e.number;
      ended := e.data.SessionClosed?;
    }
  }
}
