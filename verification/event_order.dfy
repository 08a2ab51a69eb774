/**
 The event stream when the after-commit hooks run in any order: a hook may
 announce any event that is committed and not yet announced. Everything else
 is as in the ordered runs.
 */
module EventOrder {
  import opened Options
  import SessionLog
  import EventStream

  type Event = SessionLog.Event
  type Stream = EventStream.Stream

  datatype World = World(ordered: EventStream.World, announced: set<nat>)

  datatype Act = Announce(i: nat) | Move(a: EventStream.Act)

  ghost predicate Enabled(w: World, a: Act) {
    match a
    case Announce(i) => i < |w.ordered.session.log| && i !in w.announced
    case Move(m) => !m.Fire? && EventStream.Enabled(w.ordered, m)
  }

  function Announced(w: EventStream.World, e: Event): EventStream.World {
    w.(stream := if w.stream.None? then None else Some(EventStream.Offer(w.stream.value, e)))
  }

  ghost function Step(w: World, a: Act): World
    requires Enabled(w, a)
  {
    match a
    case Announce(i) => World(Announced(w.ordered, w.ordered.session.log[i]), w.announced + {i})
    case Move(m) => w.(ordered := EventStream.Step(w.ordered, m))
  }

  /** The events are events of the log, each under its own number. */
  ghost predicate FromLog(es: seq<Event>, log: seq<Event>) {
    forall i :: 0 <= i < |es| ==> 0 < es[i].number <= |log| && log[es[i].number - 1] == es[i]
  }

  ghost predicate Ascending(es: seq<Event>) {
    forall i, j :: 0 <= i < j < |es| ==> es[i].number < es[j].number
  }

  ghost predicate Above(es: seq<Event>, n: nat) {
    forall i :: 0 <= i < |es| ==> es[i].number > n
  }

  ghost predicate UpTo(es: seq<Event>, n: nat) {
    forall i :: 0 <= i < |es| ==> es[i].number <= n
  }

  ghost predicate StreamInv(t: Stream, log: seq<Event>, last: nat) {
    && EventStream.Rising(t)
    && FromLog(t.wire, log) && FromLog(t.history, log) && FromLog(t.queue, log)
    && Above(t.wire, last) && last <= t.delivered
    && (!t.loaded ==> t.history == [] && t.wire == [] && t.delivered == t.after && !t.ended)
  }

  ghost predicate Inv(w: World) {
    && SessionLog.Inv(w.ordered.session)
    && Ascending(w.ordered.seen) && UpTo(w.ordered.seen, w.ordered.last)
    && FromLog(w.ordered.seen, w.ordered.session.log)
    && (w.ordered.stream.Some? ==> StreamInv(w.ordered.stream.value, w.ordered.session.log, w.ordered.last))
  }

  lemma FromLogGrows(es: seq<Event>, a: seq<Event>, b: seq<Event>)
    requires FromLog(es, a) && a <= b
    ensures FromLog(es, b)
  {
  }

  lemma CommitInv(w: World, tx: SessionLog.Act)
    requires Inv(w) && SessionLog.Enabled(w.ordered.session, tx)
    ensures Inv(Step(w, Move(EventStream.Commit(tx))))
  {
    var a, b := w.ordered.session.log, SessionLog.Step(w.ordered.session, tx).log;
    SessionLog.StepKeepsInv(w.ordered.session, tx);
    SessionLog.StepExtends(w.ordered.session, tx);
    FromLogGrows(w.ordered.seen, a, b);
    if w.ordered.stream.Some? {
      var t := w.ordered.stream.value;
      FromLogGrows(t.wire, a, b);
      FromLogGrows(t.history, a, b);
      FromLogGrows(t.queue, a, b);
    }
  }

  lemma OfferInv(t: Stream, s: SessionLog.Session, last: nat, i: nat)
    requires SessionLog.Numbered(s) && StreamInv(t, s.log, last) && i < |s.log|
    ensures StreamInv(EventStream.Offer(t, s.log[i]), s.log, last)
  {
    assert EventStream.Offer(t, s.log[i]).queue in {t.queue, t.queue + [s.log[i]]};
  }

  lemma AnnounceInv(w: World, i: nat)
    requires Inv(w) && Enabled(w, Announce(i))
    ensures Inv(Step(w, Announce(i)))
  {
    if w.ordered.stream.Some? { OfferInv(w.ordered.stream.value, w.ordered.session, w.ordered.last, i); }
  }

  lemma LoadInv(t: Stream, s: SessionLog.Session, last: nat)
    requires SessionLog.Numbered(s) && StreamInv(t, s.log, last) && !t.loaded
    ensures StreamInv(t.(loaded := true, history := EventStream.After(s.log, t.after)), s.log, last)
  {
  }

  lemma AdvanceInv(t: Stream, log: seq<Event>, last: nat)
    requires StreamInv(t, log, last)
    ensures StreamInv(EventStream.Advance(t), log, last)
  {
    EventStream.AdvanceRises(t);
  }

  lemma ReceiveInv(w: World)
    requires Inv(w) && EventStream.Enabled(w.ordered, EventStream.Receive)
    ensures Inv(Step(w, Move(EventStream.Receive)))
  {
    var t := w.ordered.stream.value;
    SeenRises(w.ordered.seen, w.ordered.last, t.wire[0], w.ordered.session.log);
    WireShrinks(t, w.ordered.session.log, w.ordered.last);
  }

  lemma SeenRises(seen: seq<Event>, last: nat, e: Event, log: seq<Event>)
    requires Ascending(seen) && UpTo(seen, last) && FromLog(seen, log) && e.number > last && FromLog([e], log)
    ensures Ascending(seen + [e]) && UpTo(seen + [e], e.number) && FromLog(seen + [e], log)
  {
    assert [e][0] == e;
  }

  lemma WireShrinks(t: Stream, log: seq<Event>, last: nat)
    requires StreamInv(t, log, last) && t.wire != []
    ensures StreamInv(t.(wire := t.wire[1..]), log, t.wire[0].number)
  {
  }

  lemma ConnectionInv(w: World, m: EventStream.Act)
    requires Inv(w) && EventStream.Enabled(w.ordered, m) && (m.Connect? || m.Check? || m.End? || m.Cut?)
    ensures Inv(Step(w, Move(m)))
  {
  }

  lemma MoveInv(w: World, m: EventStream.Act)
    requires Inv(w) && EventStream.Enabled(w.ordered, m) && !m.Fire?
    ensures Inv(Step(w, Move(m)))
  {
    match m
    case Commit(tx) => CommitInv(w, tx);
    case Load => LoadInv(w.ordered.stream.value, w.ordered.session, w.ordered.last);
    case Yield => AdvanceInv(w.ordered.stream.value, w.ordered.session.log, w.ordered.last);
    case Receive => ReceiveInv(w);
    case _ => ConnectionInv(w, m);
  }

  lemma StepKeepsInv(w: World, a: Act)
    requires Inv(w) && Enabled(w, a)
    ensures Inv(Step(w, a))
  {
    match a
    case Announce(i) => AnnounceInv(w, i);
    case Move(m) => MoveInv(w, m);
  }

  // Whole runs.

  ghost predicate StepAt(tr: seq<World>, acts: seq<Act>, i: nat)
    requires i < |acts| && |tr| == |acts| + 1
  {
    Enabled(tr[i], acts[i]) && tr[i + 1] == Step(tr[i], acts[i])
  }

  ghost predicate Run(tr: seq<World>, acts: seq<Act>) {
    && |tr| == |acts| + 1
    && SessionLog.Inv(tr[0].ordered.session) && tr[0].ordered == EventStream.Initial(tr[0].ordered.session)
    && forall i: nat :: i < |acts| ==> StepAt(tr, acts, i)
  }

  lemma {:induction false} RunKeepsInv(tr: seq<World>, acts: seq<Act>, n: nat)
    requires Run(tr, acts) && n <= |acts|
    ensures Inv(tr[n])
  {
    if n > 0 {
      RunKeepsInv(tr, acts, n - 1);
      assert StepAt(tr, acts, n - 1);
      StepKeepsInv(tr[n - 1], acts[n - 1]);
    }
  }

  /** In whatever order the hooks run, across overflows, cuts and reconnections:
      the client processes events of the log under strictly rising numbers, so
      none twice, none out of order and none that was not committed. */
  lemma RisingInAnyOrder(tr: seq<World>, acts: seq<Act>, n: nat, i: nat, j: nat)
    requires Run(tr, acts) && n <= |acts| && i < j < |tr[n].ordered.seen|
    ensures var (seen, log) := (tr[n].ordered.seen, tr[n].ordered.session.log);
            && seen[i].number < seen[j].number
            && 0 < seen[j].number <= |log| && seen[j] == log[seen[j].number - 1]
  {
    RunKeepsInv(tr, acts, n);
  }

  lemma {:induction false} SeenGrows(tr: seq<World>, acts: seq<Act>, m: nat, n: nat)
    requires Run(tr, acts) && m <= n <= |acts|
    ensures tr[m].ordered.seen <= tr[n].ordered.seen
  {
    if m < n {
      SeenGrows(tr, acts, m, n - 1);
      assert StepAt(tr, acts, n - 1);
    }
  }

  /** A number that the client has passed over is left out for good. */
  lemma LeftOutForGood(tr: seq<World>, acts: seq<Act>, m: nat, n: nat, i: nat, x: nat)
    requires Run(tr, acts) && m <= n <= |acts|
    requires i < |tr[m].ordered.seen| && x < tr[m].ordered.seen[i].number
    requires forall j :: 0 <= j < |tr[m].ordered.seen| ==> tr[m].ordered.seen[j].number != x
    ensures forall j :: 0 <= j < |tr[n].ordered.seen| ==> tr[n].ordered.seen[j].number != x
  {
    SeenGrows(tr, acts, m, n);
    var seen := tr[n].ordered.seen;
    forall j | 0 <= j < |seen| ensures seen[j].number != x {
      if j < |tr[m].ordered.seen| {
        assert seen[j] == tr[m].ordered.seen[j];
      } else {
        RisingInAnyOrder(tr, acts, n, i, j);
      }
    }
  }

  // A run that leaves an event out.

  lemma OneMore(tr: seq<World>, acts: seq<Act>, a: Act)
    requires Run(tr, acts) && Enabled(tr[|acts|], a)
    ensures Run(tr + [Step(tr[|acts|], a)], acts + [a])
  {
    var tr', acts' := tr + [Step(tr[|acts|], a)], acts + [a];
    forall i: nat | i < |acts'| ensures StepAt(tr', acts', i) {
      if i < |acts| { assert StepAt(tr, acts, i); }
    }
  }

  /** A client waits on a live stream over an empty log. */
  ghost predicate Waits(w: World) {
    && w.ordered.stream == Some(EventStream.Subscribe(0).(checked := Some(0), loaded := true))
    && w.ordered.session == SessionLog.Created(false) && w.announced == {}
    && w.ordered.seen == [] && w.ordered.last == 0
  }

  lemma ReachesWaiting() returns (tr: seq<World>, acts: seq<Act>)
    ensures Run(tr, acts) && Waits(tr[|acts|])
  {
    var w0 := World(EventStream.Initial(SessionLog.Created(false)), {});
    tr, acts := [w0], [];
    OneMore(tr, acts, Move(EventStream.Connect));
    tr, acts := tr + [Step(w0, Move(EventStream.Connect))], acts + [Move(EventStream.Connect)];
    var w1 := tr[|acts|];
    OneMore(tr, acts, Move(EventStream.Check));
    tr, acts := tr + [Step(w1, Move(EventStream.Check))], acts + [Move(EventStream.Check)];
    var w2 := tr[|acts|];
    OneMore(tr, acts, Move(EventStream.Load));
    tr, acts := tr + [Step(w2, Move(EventStream.Load))], acts + [Move(EventStream.Load)];
  }

  const ONE: Event := SessionLog.Event(1, SessionLog.Other("one"), true)
  const TWO: Event := SessionLog.Event(2, SessionLog.Other("two"), true)

  /** Both events are committed and announced, the second first. */
  ghost predicate Crossed(w: World) {
    && w.ordered.stream == Some(EventStream.Subscribe(0).(checked := Some(0), loaded := true, queue := [TWO, ONE]))
    && w.ordered.session.log == [ONE, TWO] && w.ordered.seen == [] && w.ordered.last == 0
  }

  lemma ReachesCrossed() returns (tr: seq<World>, acts: seq<Act>)
    ensures Run(tr, acts) && Crossed(tr[|acts|])
  {
    tr, acts := ReachesWaiting();
    var a := Move(EventStream.Commit(SessionLog.Post(ONE.data)));
    OneMore(tr, acts, a);
    tr, acts := tr + [Step(tr[|acts|], a)], acts + [a];
    assert tr[|acts|].ordered.session.log == [ONE];
    a := Move(EventStream.Commit(SessionLog.Post(TWO.data)));
    OneMore(tr, acts, a);
    tr, acts := tr + [Step(tr[|acts|], a)], acts + [a];
    assert tr[|acts|].ordered.session.log == [ONE, TWO];
    OneMore(tr, acts, Announce(1));
    tr, acts := tr + [Step(tr[|acts|], Announce(1))], acts + [Announce(1)];
    assert tr[|acts|].ordered.stream.value.queue == [TWO];
    OneMore(tr, acts, Announce(0));
    tr, acts := tr + [Step(tr[|acts|], Announce(0))], acts + [Announce(0)];
    assert tr[|acts|].ordered.stream.value.queue == [TWO, ONE];
  }

  /** Such runs do leave events out: a client that was connected all the time has
      processed the second event and can never process the first. */
  lemma OutOfOrderSkips()
    ensures exists tr: seq<World>, acts: seq<Act> ::
              Run(tr, acts) && tr[|acts|].ordered.session.log == [ONE, TWO] && tr[|acts|].ordered.seen == [TWO]
  {
    var tr, acts := ReachesCrossed();
    OneMore(tr, acts, Move(EventStream.Yield));
    tr, acts := tr + [Step(tr[|acts|], Move(EventStream.Yield))], acts + [Move(EventStream.Yield)];
    assert tr[|acts|].ordered.stream.value.wire == [TWO];
    OneMore(tr, acts, Move(EventStream.Receive));
    tr, acts := tr + [Step(tr[|acts|], Move(EventStream.Receive))], acts + [Move(EventStream.Receive)];
    assert tr[|acts|].ordered.seen == [TWO];
  }
}
