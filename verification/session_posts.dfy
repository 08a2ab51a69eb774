/**
 The session's log as any reader sees it: the server's own events and those that
 the runner posted, which may be of any kind and come at any time.
 */
module SessionPosts {
  import opened Options
  import opened SessionLog

  /** What an event can mark: a close, or the start or the end of a command. */
  datatype Mark = CloseMark | StartMark(command: nat) | EndMark(command: nat)

  predicate Bears(d: Data, m: Mark) {
    match m
    case CloseMark => d.SessionClosed?
    case StartMark(c) => d.CommandStarted? && d.command == c
    case EndMark(c) => (d.CommandFinished? || d.CommandFailed?) && d.command == c
  }

  /** How often a mark is in the log: at all, from the server, from the runner. */
  function Seen(log: seq<Event>, m: Mark): nat {
    if log == [] then 0
    else Seen(log[..|log| - 1], m) + if Bears(log[|log| - 1].data, m) then 1 else 0
  }

  function Own(log: seq<Event>, m: Mark): nat {
    match m
    case CloseMark => CloseCount(log)
    case StartMark(c) => StartCount(log, c)
    case EndMark(c) => EndCount(log, c)
  }

  function Posted(log: seq<Event>, m: Mark): nat {
    if log == [] then 0
    else
      var e := log[|log| - 1];
      Posted(log[..|log| - 1], m) + if e.posted && Bears(e.data, m) then 1 else 0
  }

  /** How often the runner has posted a mark. */
  function Posts(acts: seq<Act>, m: Mark): nat {
    if acts == [] then 0
    else
      var a := acts[|acts| - 1];
      Posts(acts[..|acts| - 1], m) + if a.Post? && Bears(a.data, m) then 1 else 0
  }

  lemma {:induction false} SeenSplits(log: seq<Event>, m: Mark)
    ensures Seen(log, m) == Own(log, m) + Posted(log, m)
  {
    if log != [] {
      SeenSplits(log[..|log| - 1], m);
      var e := log[|log| - 1];
      assert Closes(e) <==> !e.posted && Bears(e.data, CloseMark);
    }
  }

  lemma PostedAdds(log: seq<Event>, e: Event, m: Mark)
    ensures Posted(log + [e], m) == Posted(log, m) + if e.posted && Bears(e.data, m) then 1 else 0
  {
    assert (log + [e])[..|log|] == log;
  }

  lemma PublishPosts(s: Session, data: Data, posted: bool, m: Mark)
    ensures Posted(Publish(s, data, posted).log, m) ==
            Posted(s.log, m) + if posted && Bears(data, m) then 1 else 0
  {
    PostedAdds(s.log, Event(s.lastSeq + 1, data, posted), m);
  }

  lemma {:induction false} OrphanedPosts(s: Session, orphans: seq<nat>, error: string, m: Mark)
    ensures Posted(Orphaned(s, orphans, error).log, m) == Posted(s.log, m)
    decreases |orphans|
  {
    if orphans != [] {
      var front, c := orphans[..|orphans| - 1], orphans[|orphans| - 1];
      OrphanedPosts(s, front, error, m);
      PublishPosts(Orphaned(s, front, error), CommandFailed(c, error), false, m);
    }
  }

  lemma EndPosts(s: Session, reason: Reason, orphans: seq<nat>, m: Mark)
    ensures Posted(End(s, reason, orphans).log, m) == Posted(s.log, m)
  {
    if Live(s.status) {
      var ended := s.(status := if reason == ByClose then Closed else Dead);
      OrphanedPosts(ended, orphans, Message(reason), m);
      PublishPosts(Orphaned(ended, orphans, Message(reason)), SessionClosed(reason), false, m);
    }
  }

  lemma StepPosts(s: Session, a: Act, m: Mark)
    ensures Posted(Step(s, a).log, m) == Posted(s.log, m) + if a.Post? && Bears(a.data, m) then 1 else 0
  {
    match a
    case MarkReady => PublishPosts(s, SessionReady(s.stale), false, m);
    case RequestClose(orphans) => EndPosts(s, ByClose, orphans, m);
    case Finish(reason, orphans) => EndPosts(s, reason, orphans, m);
    case Enqueue =>
    case TakeNext =>
      if Taken(s).1.Some? { PublishPosts(s, CommandStarted(Taken(s).1.value), false, m); }
    case Complete(c, error, result) =>
      PublishPosts(s, if error.Some? then CommandFailed(c, error.value) else CommandFinished(c, result), false, m);
    case Post(data) => PublishPosts(s, data, true, m);
  }

  lemma PostsAdd(acts: seq<Act>, n: nat, m: Mark)
    requires n < |acts|
    ensures Posts(acts[..n + 1], m) == Posts(acts[..n], m) + if acts[n].Post? && Bears(acts[n].data, m) then 1 else 0
  {
    assert acts[..n + 1][..n] == acts[..n];
  }

  /** What in the log is not the server's is what the runner posted, mark by mark. */
  lemma {:induction false} PostsAreActs(tr: seq<Session>, acts: seq<Act>, n: nat, m: Mark)
    requires Run(tr, acts) && n <= |acts|
    ensures Posted(tr[n].log, m) == Posts(acts[..n], m)
  {
    if n == 0 {
      assert tr[0].log == [] && acts[..0] == [];
    } else {
      PostsAreActs(tr, acts, n - 1, m);
      assert StepAt(tr, acts, n - 1);
      StepPosts(tr[n - 1], acts[n - 1], m);
      PostsAdd(acts, n - 1, m);
      assert tr[n] == Step(tr[n - 1], acts[n - 1]);
    }
  }

  // How many closes, starts and ends a reader sees.

  /** The whole log holds at most one close exactly when the runner has posted
      none in a run whose session has ended, or at most one in a run whose
      session still lives. */
  lemma ClosedAtMostOnceIff(tr: seq<Session>, acts: seq<Act>, n: nat)
    requires Run(tr, acts) && n <= |acts|
    ensures Seen(tr[n].log, CloseMark) <= 1 <==> Posts(acts[..n], CloseMark) <= if Live(tr[n].status) then 1 else 0
  {
    OverMeansSettled(tr, acts, n, 0);
    SeenSplits(tr[n].log, CloseMark);
    PostsAreActs(tr, acts, n, CloseMark);
  }

  predicate Ended(s: Session, c: nat) {
    c < |s.commands| && Terminal(s.commands[c])
  }

  /** A reader sees one terminal event for each ended command, and one more for
      each that the runner posted about it; exactly one, therefore, exactly when
      the row is terminal and none was posted, or it is not and one was. */
  lemma OneEndIff(tr: seq<Session>, acts: seq<Act>, n: nat, c: nat)
    requires Run(tr, acts) && n <= |acts|
    ensures var posts := Posts(acts[..n], EndMark(c));
            && Seen(tr[n].log, EndMark(c)) == posts + (if Ended(tr[n], c) then 1 else 0)
            && (Seen(tr[n].log, EndMark(c)) == 1 <==> posts == if Ended(tr[n], c) then 0 else 1)
  {
    WholeLog(tr, acts, n, 0, 0, c);
    SeenSplits(tr[n].log, EndMark(c));
    PostsAreActs(tr, acts, n, EndMark(c));
  }

  /** A command is seen to start at most once exactly when the runner posted no
      start of it, or one and the server has published none. */
  lemma StartedAtMostOnceIff(tr: seq<Session>, acts: seq<Act>, n: nat, c: nat)
    requires Run(tr, acts) && n <= |acts|
    ensures Seen(tr[n].log, StartMark(c)) <= 1 <==>
            Posts(acts[..n], StartMark(c)) <= 1 - StartCount(tr[n].log, c)
  {
    WholeLog(tr, acts, n, 0, 0, c);
    SeenSplits(tr[n].log, StartMark(c));
    PostsAreActs(tr, acts, n, StartMark(c));
  }

  // Silence.

  predicate AboutAny(d: Data) {
    d.CommandStarted? || d.CommandFinished? || d.CommandFailed?
  }

  predicate PostsAbout(a: Act) {
    a.Post? && AboutAny(a.data)
  }

  /** No event from some number on is about a command, whoever published it. */
  ghost predicate QuietFrom(log: seq<Event>, from: nat) {
    forall j :: from <= j < |log| ==> !AboutAny(log[j].data)
  }

  function Rank(status: CommandStatus): nat {
    match status case Queued => 0 case Started => 1 case _ => 2
  }

  /** Rows are added at the end and move from queued over started to their end. */
  ghost predicate Forward(a: seq<CommandStatus>, b: seq<CommandStatus>) {
    |a| <= |b| && forall c :: 0 <= c < |a| ==> Rank(a[c]) <= Rank(b[c]) && (Terminal(a[c]) ==> b[c] == a[c])
  }

  /** No row has moved, and those added since are still queued. */
  ghost predicate Unmoved(a: seq<CommandStatus>, b: seq<CommandStatus>) {
    |a| <= |b| && forall c :: 0 <= c < |b| ==> b[c] == if c < |a| then a[c] else Queued
  }

  lemma UnmovedBetween(a: seq<CommandStatus>, b: seq<CommandStatus>, c: seq<CommandStatus>)
    requires Forward(a, b) && Forward(b, c)
    ensures Forward(a, c) && (Unmoved(a, c) <==> Unmoved(a, b) && Unmoved(b, c))
  {
  }

  lemma {:induction false} OrphanedLoud(s: Session, orphans: seq<nat>, error: string)
    requires OrphansOf(s.commands, orphans)
    ensures var t := Orphaned(s, orphans, error);
            && s.log <= t.log && Forward(s.commands, t.commands)
            && (orphans == [] ==> t == s)
            && (orphans != [] ==> !QuietFrom(t.log, |s.log|) && !Unmoved(s.commands, t.commands))
    decreases |orphans|
  {
    OrphanedCommands(s, orphans, error);
    OrphanedExtends(s, orphans, error);
    if orphans != [] {
      var t, c := Orphaned(s, orphans, error), orphans[|orphans| - 1];
      OrphanedExtends(s, orphans[..|orphans| - 1], error);
      assert AboutAny(t.log[|t.log| - 1].data);
      assert t.commands[c] != s.commands[c];
    }
  }

  lemma EndQuietIff(s: Session, reason: Reason, orphans: seq<nat>)
    requires Lists(s.commands, orphans)
    ensures var t := End(s, reason, orphans);
            Forward(s.commands, t.commands) && (QuietFrom(t.log, |s.log|) <==> Unmoved(s.commands, t.commands))
  {
    if Live(s.status) {
      var ended := s.(status := if reason == ByClose then Closed else Dead);
      OrphanedLoud(ended, orphans, Message(reason));
      var before, t := Orphaned(ended, orphans, Message(reason)), End(s, reason, orphans);
      assert t.log == before.log + [t.log[|before.log|]] && t.commands == before.commands;
      if orphans != [] {
        var j :| |s.log| <= j < |before.log| && AboutAny(before.log[j].data);
        assert t.log[j] == before.log[j];
      }
    }
  }

  lemma PublishQuietIff(s: Session, data: Data, posted: bool)
    ensures QuietFrom(Publish(s, data, posted).log, |s.log|) <==> !AboutAny(data)
  {
    assert Publish(s, data, posted).log[|s.log|].data == data;
  }

  /** One transaction publishes an event about a command exactly when it moves a
      row or is a post about one. */
  lemma StepQuietIff(s: Session, a: Act)
    requires Enabled(s, a)
    ensures var t := Step(s, a);
            && Forward(s.commands, t.commands)
            && (QuietFrom(t.log, |s.log|) <==> !PostsAbout(a) && Unmoved(s.commands, t.commands))
  {
    match a
    case RequestClose(orphans) => EndQuietIff(s, ByClose, orphans);
    case Finish(reason, orphans) => EndQuietIff(s, reason, orphans);
    case MarkReady => PublishQuietIff(s.(status := Active), SessionReady(s.stale), false);
    case Enqueue =>
    case TakeNext =>
      var (t, k) := Taken(s);
      if k.Some? {
        PublishQuietIff(s.(commands := t.commands), CommandStarted(k.value), false);
        assert t.commands[k.value] != s.commands[k.value];
      }
    case Complete(c, error, result) =>
      if c < |s.commands| && s.commands[c] == Started {
        var data := if error.Some? then CommandFailed(c, error.value) else CommandFinished(c, result);
        PublishQuietIff(s.(commands := Step(s, a).commands), data, false);
        assert Step(s, a).commands[c] != s.commands[c];
      }
    case Post(data) => PublishQuietIff(s, data, true);
  }

  /** From any moment of any run on, no event about a command is published, by
      whomever, exactly when the runner posts none and no row moves. */
  lemma {:induction false} QuietSinceIff(tr: seq<Session>, acts: seq<Act>, m: nat, n: nat)
    requires Run(tr, acts) && m <= n <= |acts|
    ensures Forward(tr[m].commands, tr[n].commands)
    ensures QuietFrom(tr[n].log, |tr[m].log|) <==>
            (forall k :: m <= k < n ==> !PostsAbout(acts[k])) && Unmoved(tr[m].commands, tr[n].commands)
  {
    if m < n {
      QuietSinceIff(tr, acts, m, n - 1);
      LogOnlyGrows(tr, acts, m, n - 1);
      assert StepAt(tr, acts, n - 1);
      StepExtends(tr[n - 1], acts[n - 1]);
      StepQuietIff(tr[n - 1], acts[n - 1]);
      UnmovedBetween(tr[m].commands, tr[n - 1].commands, tr[n].commands);
      QuietJoins(tr[n - 1].log, tr[n].log, |tr[m].log|);
    }
  }

  lemma QuietJoins(a: seq<Event>, b: seq<Event>, from: nat)
    requires a <= b && from <= |a|
    ensures QuietFrom(b, from) <==> QuietFrom(a, from) && QuietFrom(b, |a|)
  {
    forall j | from <= j < |a| ensures b[j] == a[j] {}
  }

  /** The step that ends a session ends its log, so far, with the close. */
  lemma EndsWithTheClose(s: Session, a: Act)
    requires Live(s.status) && !Live(Step(s, a).status)
    ensures var log := Step(s, a).log; log != [] && Closes(log[|log| - 1])
  {
  }

  lemma {:induction false} EndedRowsStay(tr: seq<Session>, acts: seq<Act>, m: nat, n: nat)
    requires Run(tr, acts) && m <= n <= |acts| && !Live(tr[m].status)
    ensures !Live(tr[n].status) && tr[n].commands == tr[m].commands
  {
    if m < n {
      EndedRowsStay(tr, acts, m, n - 1);
      RunKeepsInv(tr, acts, n - 1);
      assert StepAt(tr, acts, n - 1);
      EndedStepKeepsRows(tr[n - 1], acts[n - 1]);
    }
  }

  lemma EndedStepKeepsRows(s: Session, a: Act)
    requires Inv(s) && !Live(s.status)
    ensures !Live(Step(s, a).status) && Step(s, a).commands == s.commands
  {
  }

  /** Behind the server's close no event is about a command, exactly when the
      runner posts none there. */
  lemma SilentAfterTheEndIff(tr: seq<Session>, acts: seq<Act>, m: nat, n: nat)
    requires Run(tr, acts) && m < n <= |acts| && Live(tr[m].status) && !Live(tr[m + 1].status)
    ensures var i := |tr[m + 1].log| - 1;
            && 0 <= i < |tr[n].log| && Closes(tr[n].log[i])
            && (QuietFrom(tr[n].log, i + 1) <==> forall k :: m < k < n ==> !PostsAbout(acts[k]))
  {
    assert StepAt(tr, acts, m);
    EndsWithTheClose(tr[m], acts[m]);
    LogOnlyGrows(tr, acts, m + 1, n);
    EndedRowsStay(tr, acts, m + 1, n);
    QuietSinceIff(tr, acts, m + 1, n);
  }

  // What a runner can do.

  lemma OneMore(tr: seq<Session>, acts: seq<Act>, a: Act)
    requires Run(tr, acts) && Enabled(tr[|acts|], a)
    ensures Run(tr + [Step(tr[|acts|], a)], acts + [a])
  {
    var tr', acts' := tr + [Step(tr[|acts|], a)], acts + [a];
    forall i: nat | i < |acts'| ensures StepAt(tr', acts', i) {
      if i < |acts| { assert StepAt(tr, acts, i); }
    }
  }

  /** Transactions that end nothing can come in any sequence. */
  lemma {:induction false} RunOf(acts: seq<Act>) returns (tr: seq<Session>)
    requires forall i :: 0 <= i < |acts| ==> !acts[i].Finish? && !acts[i].RequestClose?
    ensures Run(tr, acts)
  {
    if acts == [] {
      tr := [Created(false)];
    } else {
      var front, a := acts[..|acts| - 1], acts[|acts| - 1];
      tr := RunOf(front);
      OneMore(tr, front, a);
      assert acts == front + [a];
      tr := tr + [Step(tr[|front|], a)];
    }
  }

  /** It can post a close over a live session. */
  lemma RunnerCanPostAClose()
    ensures exists tr: seq<Session>, acts: seq<Act> ::
              Run(tr, acts) && Live(tr[|acts|].status)
              && exists k :: 0 <= k < |tr[|acts|].log| && tr[|acts|].log[k].data.SessionClosed?
  {
    var s0 := Created(false);
    var s1 := Publish(s0, SessionClosed(ByDeath), true);
    var tr, acts := [s0, s1], [Post(SessionClosed(ByDeath))];
    assert StepAt(tr, acts, 0);
    assert Run(tr, acts) && tr[|acts|].log[0].data.SessionClosed?;
  }

  const FORGERY: seq<Act> :=
    [Enqueue, TakeNext, Post(CommandFinished(0, "forged")), Complete(0, None, "real")]

  lemma ForgeryRows(tr: seq<Session>)
    requires Run(tr, FORGERY)
    ensures tr[4].commands == [Finished]
  {
    assert StepAt(tr, FORGERY, 0) && StepAt(tr, FORGERY, 1);
    assert tr[1].commands == [Queued];
    assert tr[2].commands == [Started];
    assert StepAt(tr, FORGERY, 2) && StepAt(tr, FORGERY, 3);
    assert tr[3].commands == [Started];
  }

  /** It can post an end for a command that it then completes: two ends are seen. */
  lemma RunnerCanEndTwice()
    ensures exists tr: seq<Session> :: Run(tr, FORGERY) && Seen(tr[4].log, EndMark(0)) == 2
  {
    var tr := RunOf(FORGERY);
    ForgeryRows(tr);
    PostsAdd(FORGERY, 0, EndMark(0));
    PostsAdd(FORGERY, 1, EndMark(0));
    PostsAdd(FORGERY, 2, EndMark(0));
    PostsAdd(FORGERY, 3, EndMark(0));
    OneEndIff(tr, FORGERY, 4, 0);
  }

  const AFTERWORD: seq<Act> := [Finish(ByClose, []), Post(CommandStarted(7))]

  lemma AfterwordRun() returns (tr: seq<Session>)
    ensures Run(tr, AFTERWORD) && Live(tr[0].status) && !Live(tr[1].status)
  {
    tr := [Created(false)];
    OneMore(tr, [], AFTERWORD[0]);
    tr := tr + [Step(tr[0], AFTERWORD[0])];
    OneMore(tr, [AFTERWORD[0]], AFTERWORD[1]);
    tr := tr + [Step(tr[1], AFTERWORD[1])];
    assert AFTERWORD == [AFTERWORD[0]] + [AFTERWORD[1]];
  }

  /** It can post a start behind the server's close. */
  lemma RunnerCanSpeakAfterTheEnd()
    ensures exists tr: seq<Session>, i: nat ::
              Run(tr, AFTERWORD) && i < |tr[2].log| && Closes(tr[2].log[i]) && !QuietFrom(tr[2].log, i + 1)
  {
    var tr := AfterwordRun();
    assert PostsAbout(AFTERWORD[1]);
    SilentAfterTheEndIff(tr, AFTERWORD, 0, 2);
    var i := |tr[1].log| - 1;
    assert i < |tr[2].log| && Closes(tr[2].log[i]) && !QuietFrom(tr[2].log, i + 1);
  }
}
