/**
 What the session's log records of a command against what was reported of it:
 the runner's result or error, or the end of the session that orphaned it. Then
 the same for the future of the client that submitted it.
 */
module SessionReports {
  import opened Options
  import opened SessionLog
  import opened Deciding
  import ClientSession
  import EndToEnd
  import EventStream

  function Word(reason: Reason): string {
    match reason
    case ByClose => "closed"
    case ByDeath => "dead"
    case ByTimeout => "timeout"
  }

  /** Does this transaction end a live session, and why? */
  function Ending(s: Session, tx: Act): Option<Reason> {
    match tx
    case Finish(reason, _) => if s.status == Pending || s.status == Active then Some(reason) else None
    case RequestClose(_) => if s.status == Pending then Some(ByClose) else None
    case _ => None
  }

  /** What a transaction has to say about the end of a command: the runner's
      report of the one it was given, or that the session ended before it did. */
  function Report(s: Session, tx: Act, c: nat): Option<Outcome> {
    if c >= |s.commands| then None
    else if tx.Complete? then
      if tx.command != c || s.commands[c] != Started then None
      else if tx.error.None? then Some(ClientSession.Value(tx.result))
      else Some(ClientSession.Error(tx.error.value))
    else if Ending(s, tx).Some? && (s.commands[c] == Queued || s.commands[c] == Started) then
      Some(ClientSession.Error("session " + Word(Ending(s, tx).value)))
    else None
  }

  lemma RecordedAdds(log: seq<Event>, e: Event, c: nat)
    ensures Recorded(log + [e], c) == if Ends(e, c) then Some(OutcomeOf(e)) else Recorded(log, c)
  {
    assert (log + [e])[..|log|] == log;
  }

  lemma {:induction false} OrphanedRecords(s: Session, orphans: seq<nat>, error: string, c: nat)
    ensures Recorded(Orphaned(s, orphans, error).log, c) ==
            if c in orphans then Some(ClientSession.Error(error)) else Recorded(s.log, c)
    decreases |orphans|
  {
    if orphans != [] {
      var front, d := orphans[..|orphans| - 1], orphans[|orphans| - 1];
      OrphanedRecords(s, front, error, c);
      var before := Orphaned(s, front, error);
      assert orphans == front + [d];
      RecordedAdds(before.log, Event(before.lastSeq + 1, CommandFailed(d, error), false), c);
    }
  }

  /** What is recorded of a command, and what its row says, after a transaction
      that reported that. */
  predicate Follows(s: Session, s': Session, c: nat, report: Option<Outcome>) {
    && Recorded(s'.log, c) == (if report.Some? then report else Recorded(s.log, c))
    && (report.Some? ==>
          c < |s'.commands| && s'.commands[c] == (if report.value.Value? then Finished else Failed))
    && (report.None? && c < |s.commands| && Terminal(s.commands[c]) ==>
          c < |s'.commands| && s'.commands[c] == s.commands[c])
  }

  /** What the end of a session says about a command. */
  function Orphaning(s: Session, reason: Reason, c: nat): Option<Outcome> {
    if c < |s.commands| && !Terminal(s.commands[c]) then Some(ClientSession.Error(Message(reason))) else None
  }

  lemma EndLog(s: Session, reason: Reason, orphans: seq<nat>, c: nat)
    requires Live(s.status) && Lists(s.commands, orphans)
    ensures Recorded(End(s, reason, orphans).log, c) ==
            if Orphaning(s, reason, c).Some? then Orphaning(s, reason, c) else Recorded(s.log, c)
  {
    var ended := s.(status := if reason == ByClose then Closed else Dead);
    var failed := Orphaned(ended, orphans, Message(reason));
    OrphanedRecords(ended, orphans, Message(reason), c);
    RecordedAdds(failed.log, Event(failed.lastSeq + 1, SessionClosed(reason), false), c);
    assert c in orphans <==> c < |s.commands| && !Terminal(s.commands[c]);
  }

  lemma EndRows(s: Session, reason: Reason, orphans: seq<nat>, c: nat)
    requires Live(s.status) && Lists(s.commands, orphans) && c < |s.commands|
    ensures |End(s, reason, orphans).commands| == |s.commands|
    ensures End(s, reason, orphans).commands[c] == if Terminal(s.commands[c]) then s.commands[c] else Failed
  {
    OrphanedCommands(s.(status := if reason == ByClose then Closed else Dead), orphans, Message(reason));
  }

  lemma EndRecords(s: Session, reason: Reason, orphans: seq<nat>, c: nat)
    requires Live(s.status) && Lists(s.commands, orphans)
    ensures Follows(s, End(s, reason, orphans), c, Orphaning(s, reason, c))
  {
    EndLog(s, reason, orphans, c);
    if c < |s.commands| { EndRows(s, reason, orphans, c); }
  }

  lemma EndReports(s: Session, tx: Act, c: nat)
    requires tx.Finish? || tx.RequestClose?
    ensures Report(s, tx, c) == match Ending(s, tx)
                                case Some(reason) => Orphaning(s, reason, c)
                                case None => None
  {
    if Ending(s, tx).Some? { assert Message(Ending(s, tx).value) == "session " + Word(Ending(s, tx).value); }
  }

  lemma PublishRecords(s: Session, rows: Session, data: Data, posted: bool, c: nat)
    requires rows.log == s.log
    ensures var e := Event(rows.lastSeq + 1, data, posted);
            Recorded(Publish(rows, data, posted).log, c) ==
            if Ends(e, c) then Some(OutcomeOf(e)) else Recorded(s.log, c)
  {
    RecordedAdds(s.log, Event(rows.lastSeq + 1, data, posted), c);
  }

  lemma CompletedRecords(s: Session, d: nat, error: Option<string>, result: string, c: nat)
    ensures Follows(s, Completed(s, d, error, result), c, Report(s, Complete(d, error, result), c))
  {
    if d < |s.commands| {
      match error
      case Some(e) => PublishRecords(s, s.(commands := s.commands[d := Failed]), CommandFailed(d, e), false, c);
      case None => PublishRecords(s, s.(commands := s.commands[d := Finished]), CommandFinished(d, result), false, c);
    }
  }

  lemma TakenRecords(s: Session, c: nat)
    ensures Follows(s, Taken(s).0, c, None)
  {
    var k := FirstQueued(s.commands);
    if k < |s.commands| { PublishRecords(s, s.(commands := s.commands[k := Started]), CommandStarted(k), false, c); }
  }

  /** Each transaction records exactly what was reported to it. */
  lemma StepRecords(s: Session, tx: Act, c: nat)
    requires Enabled(s, tx)
    ensures Follows(s, Step(s, tx), c, Report(s, tx, c))
  {
    match tx
    case RequestClose(orphans) =>
      EndReports(s, tx, c);
      if s.status == Pending { EndRecords(s, ByClose, orphans, c); }
    case Finish(reason, orphans) =>
      EndReports(s, tx, c);
      if Live(s.status) { EndRecords(s, reason, orphans, c); }
    case MarkReady => PublishRecords(s, s.(status := Active), SessionReady(s.stale), false, c);
    case Enqueue =>
    case TakeNext => TakenRecords(s, c);
    case Complete(d, error, result) => CompletedRecords(s, d, error, result, c);
    case Post(data) => PublishRecords(s, s, data, true, c);
  }

  // Whole runs.

  ghost predicate ReportedAt(tr: seq<Session>, acts: seq<Act>, i: nat, c: nat, o: Outcome)
    requires i < |acts| && |tr| == |acts| + 1
  {
    Report(tr[i], acts[i], c) == Some(o)
  }

  lemma Recording(tr: seq<Session>, acts: seq<Act>, n: nat, c: nat)
    requires Run(tr, acts) && n < |acts|
    ensures Follows(tr[n], tr[n + 1], c, Report(tr[n], acts[n], c))
    ensures Report(tr[n], acts[n], c).Some? ==> Recorded(tr[n].log, c).None?
  {
    assert StepAt(tr, acts, n);
    StepRecords(tr[n], acts[n], c);
    RunKeepsInv(tr, acts, n);
    assert CommandAt(tr[n], c);
    RecordedIff(tr[n].log, c);
  }

  /** An outcome is recorded of a command exactly when it was reported, so the
      first report of it is also the last. */
  lemma {:induction false} RecordedIffReported(tr: seq<Session>, acts: seq<Act>, n: nat, c: nat, o: Outcome)
    requires Run(tr, acts) && n <= |acts|
    ensures Recorded(tr[n].log, c) == Some(o) <==> exists i: nat :: i < n && ReportedAt(tr, acts, i, c, o)
  {
    if n > 0 {
      RecordedIffReported(tr, acts, n - 1, c, o);
      Recording(tr, acts, n - 1, c);
      assert ReportedAt(tr, acts, n - 1, c, o) <==> Report(tr[n - 1], acts[n - 1], c) == Some(o);
      if Recorded(tr[n - 1].log, c).Some? { assert Recorded(tr[n].log, c) == Recorded(tr[n - 1].log, c); }
    }
  }

  /** The runner's completion of the command it has is what the log records of
      it from then on, and its row says finished exactly when there was no error. */
  lemma CompletionIsRecorded(tr: seq<Session>, acts: seq<Act>, i: nat, n: nat)
    requires Run(tr, acts) && i < n <= |acts| && acts[i].Complete?
    requires acts[i].command < |tr[i].commands| && tr[i].commands[acts[i].command] == Started
    ensures var (c, error) := (acts[i].command, acts[i].error);
            && Recorded(tr[n].log, c) ==
               Some(if error.None? then ClientSession.Value(acts[i].result) else ClientSession.Error(error.value))
            && c < |tr[i + 1].commands|
            && tr[i + 1].commands[c] == (if error.None? then Finished else Failed)
  {
    var c := acts[i].command;
    Recording(tr, acts, i, c);
    var o := Report(tr[i], acts[i], c).value;
    assert ReportedAt(tr, acts, i, c, o);
    RecordedIffReported(tr, acts, n, c, o);
  }

  // What a transaction says besides.

  /** A pending session becomes active and says so, with its profile's state; any
      other is left as it is. */
  lemma ReadyIsPublished(tr: seq<Session>, acts: seq<Act>, n: nat)
    requires Run(tr, acts) && n < |acts| && acts[n].MarkReady?
    ensures var (s, s') := (tr[n], tr[n + 1]);
            if s.status == Pending then
              s'.status == Active && s'.log == s.log + [Event(|s.log| + 1, SessionReady(s.stale), false)]
            else s' == s
  {
    assert StepAt(tr, acts, n);
    RunKeepsInv(tr, acts, n);
  }

  /** A live session that ends is closed or dead by the reason, which its last
      event names. */
  lemma EndIsPublished(tr: seq<Session>, acts: seq<Act>, n: nat)
    requires Run(tr, acts) && n < |acts|
    ensures match Ending(tr[n], acts[n])
            case Some(reason) =>
              tr[n + 1].status == (if reason == ByClose then Closed else Dead)
              && tr[n + 1].log != [] && tr[n + 1].log[|tr[n + 1].log| - 1].data == SessionClosed(reason)
            case None => Live(tr[n].status) ==> Live(tr[n + 1].status)
  {
    assert StepAt(tr, acts, n);
    var ending := Ending(tr[n], acts[n]);
    if ending.Some? {
      var status := if ending.value == ByClose then Closed else Dead;
      OrphanedStatus(tr[n].(status := status), acts[n].orphans, Message(ending.value));
    }
  }

  /** The command that a runner is given is the lowest queued one; its row and
      the log say that it has started. It is given none exactly when one is
      running or none is queued. */
  lemma GivenIsStarted(tr: seq<Session>, acts: seq<Act>, n: nat)
    requires Run(tr, acts) && n < |acts| && acts[n].TakeNext?
    ensures var (s, s', given) := (tr[n], tr[n + 1], Taken(tr[n]).1);
            if Started in s.commands || Queued !in s.commands then given.None? && s' == s
            else
              && given.Some? && given.value < |s.commands| && s.commands[given.value] == Queued
              && (forall i :: 0 <= i < given.value ==> s.commands[i] != Queued)
              && s'.commands == s.commands[given.value := Started]
              && s'.log == s.log + [Event(|s.log| + 1, CommandStarted(given.value), false)]
  {
    assert StepAt(tr, acts, n);
    RunKeepsInv(tr, acts, n);
  }

  // The client at the other end.

  /** Step i of an end-to-end run is a transaction that reports this outcome. */
  ghost predicate ServerReports(tr: seq<EndToEnd.World>, acts: seq<EndToEnd.Act>, i: nat, c: nat, o: Outcome)
    requires i < |acts| && |tr| == |acts| + 1
  {
    acts[i].Server? && Report(tr[i].stream.session, acts[i].tx, c) == Some(o)
  }

  ghost predicate WasReported(tr: seq<EndToEnd.World>, acts: seq<EndToEnd.Act>, n: nat, c: nat, o: Outcome)
    requires n <= |acts| && |tr| == |acts| + 1
  {
    exists i: nat :: i < n && ServerReports(tr, acts, i, c, o)
  }

  lemma EndToEndRecords(w: EndToEnd.World, a: EndToEnd.Act, c: nat)
    requires EndToEnd.Enabled(w, a)
    ensures Recorded(EndToEnd.Step(w, a).stream.session.log, c) ==
            if a.Server? && Report(w.stream.session, a.tx, c).Some? then Report(w.stream.session, a.tx, c)
            else Recorded(w.stream.session.log, c)
  {
    match a
    case Server(tx) => StepRecords(w.stream.session, tx, c);
    case Submit(_) => StepRecords(w.stream.session, Enqueue, c);
    case _ =>
  }

  lemma {:induction false} RecordedWasReported(
      tr: seq<EndToEnd.World>, acts: seq<EndToEnd.Act>, n: nat, c: nat, o: Outcome)
    requires EndToEnd.Run(tr, acts) && n <= |acts| && Recorded(tr[n].stream.session.log, c) == Some(o)
    ensures WasReported(tr, acts, n, c, o)
  {
    if n > 0 {
      assert EndToEnd.StepAt(tr, acts, n - 1);
      EndToEndRecords(tr[n - 1], acts[n - 1], c);
      if Recorded(tr[n - 1].stream.session.log, c) == Some(o) {
        RecordedWasReported(tr, acts, n - 1, c, o);
        var i: nat :| i < n - 1 && ServerReports(tr, acts, i, c, o);
      } else {
        assert ServerReports(tr, acts, n - 1, c, o);
      }
    }
  }

  /** From the runner's report to the caller's future: a future that the server's
      own event decided holds what a completion was given for the command, or that
      the session ended before it did. */
  lemma FutureHoldsTheReport(tr: seq<EndToEnd.World>, acts: seq<EndToEnd.Act>, n: nat, k: ClientSession.Command)
    requires EndToEnd.Run(tr, acts) && n <= |acts|
    requires k in tr[n].client.replied && k !in tr[n].client.failed
    requires var (w, id) := (tr[n], tr[n].client.replied[k]);
             var d := Decider(w.stream.seen, id, EndToEnd.Answer(w.when, id));
             d.Some? && !w.stream.seen[d.value].posted
    ensures k < |tr[n].client.futures| && tr[n].client.futures[k].Some?
    ensures WasReported(tr, acts, n, tr[n].client.replied[k], tr[n].client.futures[k].value)
  {
    EndToEnd.SettledAsRecorded(tr, acts, n, k);
    var w, id := tr[n], tr[n].client.replied[k];
    var d := Decider(w.stream.seen, id, Some(w.when[id])).value;
    EndToEnd.OwnOutcomeDecidesIff(tr, acts, n, id, d);
    RecordedWasReported(tr, acts, n, id, w.client.futures[k].value);
  }
}
