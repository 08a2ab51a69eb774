/**
 The session's database, its event stream and the client's futures taken
 together: which event of the server's log a command is settled with. One client
 per session; the runner may post events of any kind at any time.
 */
module EndToEnd {
  import opened Options
  import SessionLog
  import EventStream
  import ClientSession
  import opened Deciding

  type Client = ClientSession.Client

  /** `when` holds, for each command the client has the answer for, how many events
      it had processed when the answer came. */
  datatype World = World(stream: EventStream.World, client: Client, when: map<nat, nat>)

  datatype Act =
    | Server(tx: SessionLog.Act)
    | Submit(command: ClientSession.Command)
    | Carry(move: EventStream.Act)
    | Receive
    | Local(deed: ClientSession.Act)

  function Start(stale: bool): World {
    World(EventStream.Initial(SessionLog.Created(stale)), ClientSession.NEW, map[])
  }

  /** What an event means to the client's commands, if anything. */
  function Means(e: SessionLog.Event): Option<ClientSession.Act> {
    match e.data
    case CommandFinished(c, result) => Some(ClientSession.Terminal(c, ClientSession.Value(result)))
    case CommandFailed(c, error) => Some(ClientSession.Terminal(c, ClientSession.Error(error)))
    case SessionClosed(_) => Some(ClientSession.ClosedEvent)
    case _ => None
  }

  predicate Carries(move: EventStream.Act) {
    !move.Commit? && !move.Receive?
  }

  predicate OnlyLocal(deed: ClientSession.Act) {
    !deed.ServerAccepts? && !deed.ServerCloses? && !deed.Terminal? && !deed.ClosedEvent?
  }

  /** The client's part in a reception is not a condition: that it is always
      possible is proved. */
  ghost predicate Enabled(w: World, a: Act) {
    match a
    case Server(tx) => SessionLog.Enabled(w.stream.session, tx) && !tx.Enqueue?
    case Submit(k) => k in w.client.calls && k !in w.client.server && SessionLog.Live(w.stream.session.status)
    case Carry(move) => Carries(move) && EventStream.Enabled(w.stream, move)
    case Receive => EventStream.Enabled(w.stream, EventStream.Receive) && ClientSession.Reads(w.client)
    case Local(deed) => OnlyLocal(deed) && ClientSession.Enabled(w.client, deed)
  }

  function Next(w: World): SessionLog.Event
    requires w.stream.stream.Some? && w.stream.stream.value.wire != []
  {
    w.stream.stream.value.wire[0]
  }

  ghost function Told(c: Client, act: Option<ClientSession.Act>): Client {
    if act.Some? && ClientSession.Enabled(c, act.value) then ClientSession.Step(c, act.value) else c
  }

  ghost function Step(w: World, a: Act): World
    requires Enabled(w, a)
  {
    match a
    case Server(tx) =>
      var next := EventStream.Step(w.stream, EventStream.Commit(tx));
      w.(stream := next,
         client := if SessionLog.Live(w.stream.session.status) && !SessionLog.Live(next.session.status)
                   then Told(w.client, Some(ClientSession.ServerCloses)) else w.client)
    case Submit(k) =>
      w.(stream := EventStream.Step(w.stream, EventStream.Commit(SessionLog.Enqueue)),
         client := Told(w.client, Some(ClientSession.ServerAccepts(k, |w.stream.session.commands|))))
    case Carry(move) => w.(stream := EventStream.Step(w.stream, move))
    case Receive =>
      w.(stream := EventStream.Step(w.stream, EventStream.Receive), client := Told(w.client, Means(Next(w))))
    case Local(deed) =>
      w.(client := ClientSession.Step(w.client, deed),
         when := if deed.Reply? then w.when[w.client.server[deed.k] := |w.stream.seen|] else w.when)
  }

  // The invariant that couples the parts.

  function Answer(when: map<nat, nat>, id: nat): Option<nat> {
    if id in when then Some(when[id]) else None
  }

  /** The client has, for each command, the outcome of the event that decides. */
  predicate GotAt(c: Client, when: map<nat, nat>, seen: seq<SessionLog.Event>, id: nat) {
    && (id in when <==> id in c.answered) && (id in when ==> when[id] <= |seen|)
    && (id in c.got <==> Decided(seen, id, Answer(when, id)).Some?)
    && (id in c.got ==> Some(c.got[id]) == Decided(seen, id, Answer(when, id)))
  }

  ghost predicate Coupled(w: World) {
    && (forall id: nat :: id in w.client.server.Values <==> id < |w.stream.session.commands|)
    && (forall id: nat :: GotAt(w.client, w.when, w.stream.seen, id))
    && (w.client.serverClosed <==> !SessionLog.Live(w.stream.session.status))
    && (w.client.misled ==> EarlyPost(w.stream.seen))
  }

  /** The events hold a close that the runner posted before the server's own. */
  ghost predicate EarlyPost(es: seq<SessionLog.Event>) {
    exists i: nat :: i < |es| && EarlyAt(es, i)
  }

  ghost predicate EarlyAt(es: seq<SessionLog.Event>, i: nat)
    requires i < |es|
  {
    es[i].posted && es[i].data.SessionClosed? && forall j: nat :: j < i ==> !SessionLog.Closes(es[j])
  }

  lemma EarlyGrows(es: seq<SessionLog.Event>, e: SessionLog.Event)
    requires EarlyPost(es)
    ensures EarlyPost(es + [e])
  {
    var i: nat :| i < |es| && EarlyAt(es, i);
    assert EarlyAt(es + [e], i);
  }

  ghost predicate Inv(w: World) {
    EventStream.Inv(w.stream) && ClientSession.Inv(w.client) && Coupled(w)
  }

  /** Every event that reaches the client is the next of the log and one that the
      client's rules allow. The server's own terminal event is about an accepted
      command and its first, and its close comes when all accepted commands have
      had theirs. */
  lemma EventAllowed(w: World)
    requires Inv(w) && Enabled(w, Receive)
    ensures Means(Next(w)).Some? ==> ClientSession.Enabled(w.client, Means(Next(w)).value)
    ensures Next(w) == w.stream.session.log[w.stream.last]
    ensures forall c :: SessionLog.Ends(Next(w), c) ==>
                          c in w.client.server.Values && SessionLog.EndCount(w.stream.seen, c) == 0
    ensures SessionLog.Closes(Next(w)) ==> ClientSession.AllEnded(w.client)
  {
    var n := w.stream.last;
    EventStream.ReceiveInv(w.stream);
    if SessionLog.Closes(Next(w)) { CloseAllowed(w, n); }
    forall c | SessionLog.Ends(Next(w), c)
      ensures c in w.client.server.Values && SessionLog.EndCount(w.stream.seen, c) == 0
    {
      EndAllowed(w, c);
    }
  }

  lemma EndAllowed(w: World, c: nat)
    requires Inv(w) && w.stream.last < |w.stream.session.log|
    requires SessionLog.Ends(w.stream.session.log[w.stream.last], c)
    ensures c in w.client.server.Values && SessionLog.EndCount(w.stream.seen, c) == 0
  {
    var s, n := w.stream.session, w.stream.last;
    EndsGrow(s.log, n, c);
    assert SessionLog.CommandAt(s, c);
  }

  /** When the server's close is next or has been processed, every accepted
      command has had its end. */
  lemma CloseAllowed(w: World, i: nat)
    requires Inv(w) && i <= w.stream.last && i < |w.stream.session.log|
    requires SessionLog.Closes(w.stream.session.log[i])
    ensures ClientSession.AllEnded(w.client)
  {
    var s, n := w.stream.session, w.stream.last;
    forall k | k in w.client.server ensures w.client.server[k] in w.client.got {
      var c := w.client.server[k];
      assert c in w.client.server.Values;
      assert SessionLog.CommandAt(s, c);
      forall j | n <= j < |s.log| ensures !SessionLog.Ends(s.log[j], c) {
        assert j > i ==> !SessionLog.AboutCommand(s.log[j]);
      }
      EndsGrow(s.log, n, c);
      EndedIsDecided(w.stream.seen, c, Answer(w.when, c));
      assert GotAt(w.client, w.when, w.stream.seen, c);
    }
  }

  /** A close that comes too early for the client was posted by the runner
      before the server's own. */
  lemma MisledByAPost(w: World)
    requires Inv(w) && w.stream.last < |w.stream.session.log|
    requires w.stream.session.log[w.stream.last].data.SessionClosed? && !ClientSession.AllEnded(w.client)
    ensures EarlyPost(w.stream.seen + [w.stream.session.log[w.stream.last]])
  {
    var log, n := w.stream.session.log, w.stream.last;
    var es := w.stream.seen + [log[n]];
    forall i: nat | i <= n ensures !SessionLog.Closes(log[i]) {
      if SessionLog.Closes(log[i]) { CloseAllowed(w, i); }
    }
    assert EarlyAt(es, n);
  }

  lemma ReceiveCouples(w: World)
    requires Inv(w) && Enabled(w, Receive)
    ensures Inv(Step(w, Receive))
  {
    EventAllowed(w);
    EventStream.ReceiveInv(w.stream);
    var e, w' := Next(w), Step(w, Receive);
    if Means(e).Some? { ClientSession.StepKeepsInv(w.client, Means(e).value); }
    assert w'.stream.seen == w.stream.seen + [e] && w'.stream.session == w.stream.session;
    MeansNothingElse(w.client, e);
    if w.client.misled {
      EarlyGrows(w.stream.seen, e);
    } else if w'.client.misled {
      MisledByAPost(w);
    }
    forall id: nat ensures GotAt(w'.client, w'.when, w'.stream.seen, id) {
      GotMore(w, e, id);
    }
  }

  /** The client lets the same event decide as the log does. */
  lemma GotMore(w: World, e: SessionLog.Event, id: nat)
    requires ClientSession.Inv(w.client) && GotAt(w.client, w.when, w.stream.seen, id)
    requires Means(e).Some? ==> ClientSession.Enabled(w.client, Means(e).value)
    ensures GotAt(Told(w.client, Means(e)), w.when, w.stream.seen + [e], id)
  {
    MeansNothingElse(w.client, e);
    DecidedAdds(w.stream.seen, e, id, Answer(w.when, id));
  }

  function GotWith(c: Client, id: nat, o: Outcome): map<nat, Outcome> {
    if id in c.answered && id in c.got then c.got else c.got[id := o]
  }

  lemma TerminalFrame(c: Client, id: nat, o: Outcome)
    requires id in c.pending ==> id !in c.got
    ensures var d := ClientSession.OnTerminal(c, id, o);
            d.server == c.server && d.serverClosed == c.serverClosed && d.misled == c.misled
            && d.answered == c.answered && d.got == GotWith(c, id, o)
  {
    if id in c.pending {
      assert ClientSession.OnTerminal(c, id, o) == ClientSession.Settled(c, id, o);
    } else {
      assert ClientSession.OnTerminal(c, id, o) == ClientSession.Stashed(c, id, o);
    }
  }

  lemma MeansNothingElse(c: Client, e: SessionLog.Event)
    requires ClientSession.Inv(c) && (Means(e).Some? ==> ClientSession.Enabled(c, Means(e).value))
    ensures var d := Told(c, Means(e));
            && d.server == c.server && d.serverClosed == c.serverClosed && d.answered == c.answered
            && d.got == if e.data.CommandFinished? || e.data.CommandFailed?
                        then GotWith(c, e.data.command, OutcomeOf(e)) else c.got
    ensures Told(c, Means(e)).misled ==> c.misled || (e.data.SessionClosed? && !ClientSession.AllEnded(c))
  {
    match e.data
    case CommandFinished(id, result) =>
      assert ClientSession.IdAt(c, id);
      TerminalFrame(c, id, ClientSession.Value(result));
    case CommandFailed(id, error) =>
      assert ClientSession.IdAt(c, id);
      TerminalFrame(c, id, ClientSession.Error(error));
    case SessionClosed(_) => FailPendingFrame(ClientSession.Closing(c));
    case _ =>
  }

  lemma ServerCouples(w: World, tx: SessionLog.Act)
    requires Inv(w) && Enabled(w, Server(tx))
    ensures Inv(Step(w, Server(tx)))
  {
    EventStream.CommitInv(w.stream, tx);
    var w' := Step(w, Server(tx));
    SessionLog.StepExtends(w.stream.session, tx);
    RowsGrow(w.stream.session, tx);
    if w'.client != w.client { ClientSession.StepKeepsInv(w.client, ClientSession.ServerCloses); }
    forall id: nat ensures GotAt(w'.client, w'.when, w'.stream.seen, id) {
      assert GotAt(w.client, w.when, w.stream.seen, id);
    }
  }

  lemma RowsGrow(s: SessionLog.Session, tx: SessionLog.Act)
    requires SessionLog.Enabled(s, tx)
    ensures |SessionLog.Step(s, tx).commands| ==
            |s.commands| + if tx.Enqueue? && SessionLog.Live(s.status) then 1 else 0
  {
    match tx
    case RequestClose(orphans) => EndKeepsRows(s, SessionLog.ByClose, orphans);
    case Finish(reason, orphans) => EndKeepsRows(s, reason, orphans);
    case _ =>
  }

  lemma EndKeepsRows(s: SessionLog.Session, reason: SessionLog.Reason, orphans: seq<nat>)
    requires SessionLog.Lists(s.commands, orphans)
    ensures |SessionLog.End(s, reason, orphans).commands| == |s.commands|
  {
    var ended := s.(status := if reason == SessionLog.ByClose then SessionLog.Closed else SessionLog.Dead);
    SessionLog.OrphanedCommands(ended, orphans, SessionLog.Message(reason));
  }

  lemma ValuesGrow(m: map<ClientSession.Command, nat>, k: ClientSession.Command, id: nat)
    requires k !in m
    ensures m[k := id].Values == m.Values + {id}
  {
    var m' := m[k := id];
    forall i | i in m.Values ensures i in m'.Values {
      var j :| j in m && m[j] == i;
      assert m'[j] == i;
    }
    assert m'[k] == id;
  }

  lemma SubmitCouples(w: World, k: ClientSession.Command)
    requires Inv(w) && Enabled(w, Submit(k))
    ensures Inv(Step(w, Submit(k)))
  {
    var id := |w.stream.session.commands|;
    EventStream.CommitInv(w.stream, SessionLog.Enqueue);
    assert id !in w.client.server.Values;
    assert ClientSession.Enabled(w.client, ClientSession.ServerAccepts(k, id));
    ClientSession.StepKeepsInv(w.client, ClientSession.ServerAccepts(k, id));
    var w' := Step(w, Submit(k));
    ValuesGrow(w.client.server, k, id);
    forall i: nat ensures GotAt(w'.client, w'.when, w'.stream.seen, i) {
      assert GotAt(w.client, w.when, w.stream.seen, i);
    }
  }

  lemma CarryCouples(w: World, move: EventStream.Act)
    requires Inv(w) && Enabled(w, Carry(move))
    ensures Inv(Step(w, Carry(move)))
  {
    EventStream.StepKeepsInv(w.stream, move);
    var w' := Step(w, Carry(move));
    assert w'.stream.session == w.stream.session && w'.stream.seen == w.stream.seen;
    forall id: nat ensures GotAt(w'.client, w'.when, w'.stream.seen, id) {
      assert GotAt(w.client, w.when, w.stream.seen, id);
    }
  }

  predicate SameServer(c: Client, d: Client) {
    d.server == c.server && d.got == c.got && d.serverClosed == c.serverClosed && d.misled == c.misled
    && d.answered == c.answered
  }

  lemma FailPendingFrame(c: Client)
    ensures SameServer(c, ClientSession.FailPending(c))
  {
  }

  lemma FailFrame(c: Client, k: ClientSession.Command, o: Outcome)
    ensures SameServer(c, ClientSession.Fail(c, k, o))
    ensures SameServer(c, ClientSession.Fail(c, k, o).(failed := c.failed + {k}))
  {
  }

  lemma LocalFrame(c: Client, deed: ClientSession.Act)
    requires OnlyLocal(deed) && ClientSession.Enabled(c, deed) && !deed.Reply?
    ensures SameServer(c, ClientSession.Step(c, deed))
  {
    match deed
    case Call =>
    case Prepare(k) => FailFrame(c, k, ClientSession.DEAD);
    case Refuse(k, message) => FailFrame(c, k, ClientSession.Error(message));
    case EndReader => FailPendingFrame(c.(finished := true, aborted := true));
    case LetGoEnds => FailPendingFrame(c.(letGo := true));
    case Close =>
    case Detach =>
  }

  lemma LocalCouples(w: World, deed: ClientSession.Act)
    requires Inv(w) && Enabled(w, Local(deed)) && !deed.Reply?
    ensures Inv(Step(w, Local(deed)))
  {
    ClientSession.StepKeepsInv(w.client, deed);
    LocalFrame(w.client, deed);
    var w' := Step(w, Local(deed));
    forall id: nat ensures GotAt(w'.client, w'.when, w'.stream.seen, id) {
      assert GotAt(w.client, w.when, w.stream.seen, id);
    }
  }

  lemma ReplyCouples(w: World, k: ClientSession.Command)
    requires Inv(w) && Enabled(w, Local(ClientSession.Reply(k)))
    ensures Inv(Step(w, Local(ClientSession.Reply(k))))
  {
    var c, id, seen := w.client, w.client.server[k], w.stream.seen;
    var w' := Step(w, Local(ClientSession.Reply(k)));
    ClientSession.StepKeepsInv(c, ClientSession.Reply(k));
    ClientSession.ReplyRest(c, k, id);
    assert ClientSession.CommandAt(c, k) && ClientSession.StashAt(c, k);
    AnswerComes(seen, id, |seen|);
    forall i: nat ensures GotAt(w'.client, w'.when, w'.stream.seen, i) {
      assert GotAt(c, w.when, seen, i);
    }
  }

  lemma StepKeepsInv(w: World, a: Act)
    requires Inv(w) && Enabled(w, a)
    ensures Inv(Step(w, a))
  {
    match a
    case Server(tx) => ServerCouples(w, tx);
    case Submit(k) => SubmitCouples(w, k);
    case Carry(move) => CarryCouples(w, move);
    case Receive => ReceiveCouples(w);
    case Local(deed) =>
      if deed.Reply? { ReplyCouples(w, deed.k); } else { LocalCouples(w, deed); }
  }

  // Whole runs.

  ghost predicate StepAt(tr: seq<World>, acts: seq<Act>, i: nat)
    requires i < |acts| && |tr| == |acts| + 1
  {
    Enabled(tr[i], acts[i]) && tr[i + 1] == Step(tr[i], acts[i])
  }

  ghost predicate Run(tr: seq<World>, acts: seq<Act>) {
    && |tr| == |acts| + 1 && (exists stale :: tr[0] == Start(stale))
    && forall i: nat :: i < |acts| ==> StepAt(tr, acts, i)
  }

  lemma {:induction false} RunKeepsInv(tr: seq<World>, acts: seq<Act>, n: nat)
    requires Run(tr, acts) && n <= |acts|
    ensures Inv(tr[n])
  {
    if n == 0 {
      var stale :| tr[0] == Start(stale);
    } else {
      RunKeepsInv(tr, acts, n - 1);
      assert StepAt(tr, acts, n - 1);
      StepKeepsInv(tr[n - 1], acts[n - 1]);
    }
  }

  /** End to end: through cuts, overflows, replies before or after the events, a
      future that was not failed because the client's session was over is settled
      with the outcome of the event that decides, and unsettled only while none
      has been seen. When the runner posted no terminal event about the command,
      that is the very outcome the server published for it. */
  lemma SettledAsRecorded(tr: seq<World>, acts: seq<Act>, n: nat, k: ClientSession.Command)
    requires Run(tr, acts) && n <= |acts| && k in tr[n].client.replied && k !in tr[n].client.failed
    ensures var (w, id) := (tr[n], tr[n].client.replied[k]);
            && k < |w.client.futures| && id < |w.stream.session.commands| && id in w.when
            && w.client.futures[k] == Decided(w.stream.seen, id, Some(w.when[id]))
            && (w.client.futures[k].Some? && !PostedEnd(w.stream.seen, id) ==>
                  w.client.futures[k] == Recorded(w.stream.session.log, id))
  {
    RunKeepsInv(tr, acts, n);
    var w := tr[n];
    var id := w.client.replied[k];
    assert ClientSession.CommandAt(w.client, k) && ClientSession.StashAt(w.client, k);
    assert id in w.client.server.Values;
    assert GotAt(w.client, w.when, w.stream.seen, id) && SessionLog.CommandAt(w.stream.session, id);
    if w.client.futures[k].Some? && !PostedEnd(w.stream.seen, id) {
      var log := w.stream.session.log;
      forall j | 0 <= j < w.stream.last && log[j].posted ensures !SaysEnded(log[j], id) {
        assert w.stream.seen[j] == log[j];
      }
      OwnDecides(log, w.stream.last, id, w.when[id]);
    }
  }

  /** The runner posted a terminal event about the command. */
  ghost predicate PostedEnd(es: seq<SessionLog.Event>, c: nat) {
    exists j :: 0 <= j < |es| && es[j].posted && SaysEnded(es[j], c)
  }

  /** Where it did, the server's own event is what decides exactly when each posted
      one was seen before it, with the answer yet to come, or after both it and
      the answer. */
  lemma OwnOutcomeDecidesIff(tr: seq<World>, acts: seq<Act>, n: nat, id: nat, i: nat)
    requires Run(tr, acts) && n <= |acts| && id in tr[n].when
    requires i < |tr[n].stream.seen| && SessionLog.Ends(tr[n].stream.seen[i], id)
    ensures var (w, seen, r) := (tr[n], tr[n].stream.seen, tr[n].when[id]);
            && Recorded(w.stream.session.log, id) == Some(OutcomeOf(seen[i]))
            && (Decider(seen, id, Some(r)) == Some(i) <==>
                  forall j: nat :: j < |seen| && seen[j].posted && SaysEnded(seen[j], id) ==> GoesBefore(i, j, r))
  {
    RunKeepsInv(tr, acts, n);
    var s, seen, r := tr[n].stream.session, tr[n].stream.seen, tr[n].when[id];
    assert SessionLog.CommandAt(s, id) && seen[i] == s.log[i];
    RecordedAt(s.log, id, i);
    DecidesIff(seen, id, r, i);
    forall j: nat | j < |seen| && j != i && SaysEnded(seen[j], id) ensures seen[j].posted {
      assert seen[j] == s.log[j];
      OwnEndIsOne(s.log, id, i, j);
    }
  }

  /** And when a client that nobody closed, detached or refused has seen its
      session end, every command the server accepted and answered is settled with
      a terminal event's outcome: nothing is lost and nobody is told of a death
      instead. Only a close that the runner posted before the server's can spoil
      this, and only its terminal events can stand in for the server's. */
  lemma AllSettledAtTheEnd(tr: seq<World>, acts: seq<Act>, n: nat, k: ClientSession.Command)
    requires Run(tr, acts) && n <= |acts| && k in tr[n].client.replied
    requires var c := tr[n].client; c.finished && !c.closed && !c.detached && !c.aborted
    requires !EarlyPost(tr[n].stream.seen)
    ensures var (w, id) := (tr[n], tr[n].client.replied[k]);
            && k < |w.client.futures| && w.client.futures[k].Some? && id in w.when
            && w.client.futures[k] == Decided(w.stream.seen, id, Some(w.when[id]))
            && (!PostedEnd(w.stream.seen, id) ==> w.client.futures[k] == Recorded(w.stream.session.log, id))
  {
    RunKeepsInv(tr, acts, n);
    assert ClientSession.CommandAt(tr[n].client, k);
    SettledAsRecorded(tr, acts, n, k);
  }
}
