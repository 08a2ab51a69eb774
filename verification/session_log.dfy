/**
 One browser session in the database: its status, its commands in queue order
 and its numbered event log. Each function is one transaction; they all lock
 the session's row first, so transactions on a session follow one another.
 */
module SessionLog {
  import opened Options

  datatype Status = Pending | Active | Closed | Dead
  datatype Reason = ByClose | ByDeath | ByTimeout
  datatype CommandStatus = Queued | Started | Finished | Failed

  datatype Data =
    | SessionReady(stale: bool)
    | SessionClosed(reason: Reason)
    | CommandStarted(command: nat)
    | CommandFinished(command: nat, result: string)
    | CommandFailed(command: nat, error: string)
    | Other(text: string)

  /** `posted` marks what the runner sent in; the rest the server published. */
  datatype Event = Event(number: nat, data: Data, posted: bool)

  /** Commands are numbered by their place in the queue, from 0. */
  datatype Session = Session(
    status: Status,
    stale: bool,
    lastSeq: nat,
    lastCommand: nat,
    commands: seq<CommandStatus>,
    log: seq<Event>)

  datatype Act =
    | MarkReady
    | RequestClose(orphans: seq<nat>)
    | Finish(reason: Reason, orphans: seq<nat>)
    | Enqueue
    | TakeNext
    | Complete(command: nat, error: Option<string>, result: string)
    | Post(data: Data)

  predicate Live(status: Status) { status == Pending || status == Active }
  predicate Terminal(status: CommandStatus) { status == Finished || status == Failed }

  function Created(stale: bool): Session {
    Session(Pending, stale, 0, 0, [], [])
  }

  function Publish(s: Session, data: Data, posted: bool): Session {
    s.(lastSeq := s.lastSeq + 1, log := s.log + [Event(s.lastSeq + 1, data, posted)])
  }

  function Ready(s: Session): Session {
    if s.status == Pending then Publish(s.(status := Active), SessionReady(s.stale), false) else s
  }

  /** The failures of the orphaned commands, in the order the database lists them. */
  function Orphaned(s: Session, orphans: seq<nat>, error: string): Session {
    if orphans == [] then s
    else
      var before := Orphaned(s, orphans[..|orphans| - 1], error);
      var c := orphans[|orphans| - 1];
      var failed := if c < |before.commands| then before.(commands := before.commands[c := Failed]) else before;
      Publish(failed, CommandFailed(c, error), false)
  }

  function Message(reason: Reason): string {
    match reason
    case ByClose => "session closed"
    case ByDeath => "session dead"
    case ByTimeout => "session timeout"
  }

  function End(s: Session, reason: Reason, orphans: seq<nat>): Session {
    if !Live(s.status) then s
    else
      var ended := s.(status := if reason == ByClose then Closed else Dead);
      Publish(Orphaned(ended, orphans, Message(reason)), SessionClosed(reason), false)
  }

  /** A close only ends a session whose runner never came; otherwise it asks. */
  function CloseRequested(s: Session, orphans: seq<nat>): Session {
    if s.status == Pending then End(s, ByClose, orphans) else s
  }

  function Enqueued(s: Session): Session {
    if Live(s.status) then s.(lastCommand := s.lastCommand + 1, commands := s.commands + [Queued]) else s
  }

  /** The lowest queued command. */
  function FirstQueued(commands: seq<CommandStatus>): (k: nat)
    ensures k <= |commands|
    ensures k < |commands| ==> commands[k] == Queued
    ensures forall i :: 0 <= i < k ==> commands[i] != Queued
  {
    if commands == [] || commands[0] == Queued then 0 else 1 + FirstQueued(commands[1..])
  }

  function Taken(s: Session): (Session, Option<nat>) {
    if Started in s.commands then (s, None)
    else
      var k := FirstQueued(s.commands);
      if k == |s.commands| then (s, None)
      else (Publish(s.(commands := s.commands[k := Started]), CommandStarted(k), false), Some(k))
  }

  function Completed(s: Session, c: nat, error: Option<string>, result: string): Session {
    if c >= |s.commands| || s.commands[c] != Started then s
    else
      match error
      case Some(e) => Publish(s.(commands := s.commands[c := Failed]), CommandFailed(c, e), false)
      case None => Publish(s.(commands := s.commands[c := Finished]), CommandFinished(c, result), false)
  }

  /** A possible listing of the commands that a finish orphans. */
  ghost predicate Lists(commands: seq<CommandStatus>, orphans: seq<nat>) {
    && (forall i :: 0 <= i < |orphans| ==> orphans[i] < |commands| && !Terminal(commands[orphans[i]]))
    && (forall i, j :: 0 <= i < j < |orphans| ==> orphans[i] != orphans[j])
    && (forall c :: 0 <= c < |commands| && !Terminal(commands[c]) ==> c in orphans)
  }

  ghost predicate Enabled(s: Session, a: Act) {
    match a
    case RequestClose(orphans) => Lists(s.commands, orphans)
    case Finish(_, orphans) => Lists(s.commands, orphans)
    case _ => true
  }

  function Step(s: Session, a: Act): Session {
    match a
    case MarkReady => Ready(s)
    case RequestClose(orphans) => CloseRequested(s, orphans)
    case Finish(reason, orphans) => End(s, reason, orphans)
    case Enqueue => Enqueued(s)
    case TakeNext => Taken(s).0
    case Complete(c, error, result) => Completed(s, c, error, result)
    case Post(data) => Publish(s, data, true)
  }

  // What the server's own events say. What a runner posts beside them, and what
  // a reader of the whole log then sees, is the subject of SessionPosts.

  predicate Starts(e: Event, c: nat) { !e.posted && e.data.CommandStarted? && e.data.command == c }

  predicate Ends(e: Event, c: nat) {
    !e.posted && (e.data.CommandFinished? || e.data.CommandFailed?) && e.data.command == c
  }

  predicate AboutCommand(e: Event) {
    !e.posted && (e.data.CommandStarted? || e.data.CommandFinished? || e.data.CommandFailed?)
  }

  predicate Closes(e: Event) { !e.posted && e.data.SessionClosed? }

  function StartCount(log: seq<Event>, c: nat): nat {
    if log == [] then 0
    else StartCount(log[..|log| - 1], c) + if Starts(log[|log| - 1], c) then 1 else 0
  }

  function EndCount(log: seq<Event>, c: nat): nat {
    if log == [] then 0
    else EndCount(log[..|log| - 1], c) + if Ends(log[|log| - 1], c) then 1 else 0
  }

  function CloseCount(log: seq<Event>): nat {
    if log == [] then 0
    else CloseCount(log[..|log| - 1]) + if Closes(log[|log| - 1]) then 1 else 0
  }

  lemma CountsAdd(log: seq<Event>, e: Event, c: nat)
    ensures StartCount(log + [e], c) == StartCount(log, c) + if Starts(e, c) then 1 else 0
    ensures EndCount(log + [e], c) == EndCount(log, c) + if Ends(e, c) then 1 else 0
    ensures CloseCount(log + [e]) == CloseCount(log) + if Closes(e) then 1 else 0
  {
    assert (log + [e])[..|log|] == log;
  }

  // The invariant.

  ghost predicate Numbered(s: Session) {
    && s.lastSeq == |s.log| && s.lastCommand == |s.commands|
    && forall k :: 0 <= k < |s.log| ==> s.log[k].number == k + 1
  }

  /** A command's row and its events agree: accepted commands end once, when
      their row is terminal, and have started at most once. */
  predicate CommandAt(s: Session, c: nat) {
    if c < |s.commands| then
      && EndCount(s.log, c) == (if Terminal(s.commands[c]) then 1 else 0)
      && StartCount(s.log, c) <= 1
      && (s.commands[c] == Started ==> StartCount(s.log, c) == 1)
      && (s.commands[c] == Queued ==> StartCount(s.log, c) == 0)
    else
      EndCount(s.log, c) == 0 && StartCount(s.log, c) == 0
  }

  /** Queued commands are behind all others, and at most one is started. */
  ghost predicate InLine(commands: seq<CommandStatus>) {
    && (forall i, j :: 0 <= i < j < |commands| && commands[i] == Queued ==> commands[j] == Queued)
    && (forall i, j :: 0 <= i < j < |commands| ==> !(commands[i] == Started && commands[j] == Started))
  }

  predicate IsStart(e: Event) { !e.posted && e.data.CommandStarted? }

  ghost predicate EndedBetween(log: seq<Event>, i: nat, j: nat, c: nat) {
    j <= |log| && exists k :: i < k < j && Ends(log[k], c)
  }

  /** A start in the log is over, or its command is the one running now. */
  ghost predicate AccountedAt(s: Session, i: nat) {
    i < |s.log| && IsStart(s.log[i]) ==>
      (var c := s.log[i].data.command;
       c < |s.commands| && s.commands[c] != Queued
       && (s.commands[c] == Started || EndedBetween(s.log, i, |s.log|, c)))
  }

  ghost predicate StartsAccounted(s: Session) {
    forall i: nat :: AccountedAt(s, i)
  }

  ghost predicate SerialAt(log: seq<Event>, i: nat, j: nat) {
    i < j < |log| && IsStart(log[i]) && IsStart(log[j]) ==>
      log[i].data.command < log[j].data.command && EndedBetween(log, i, j, log[i].data.command)
  }

  /** Commands start in queue order, each after the one before it has ended. */
  ghost predicate OneAtATime(log: seq<Event>) {
    forall i: nat, j: nat :: SerialAt(log, i, j)
  }

  ghost predicate SilentAfterClose(log: seq<Event>) {
    forall i, j :: 0 <= i < j < |log| && Closes(log[i]) ==> !AboutCommand(log[j])
  }

  ghost predicate NeverClosed(log: seq<Event>) {
    CloseCount(log) == 0 && forall i :: 0 <= i < |log| ==> !Closes(log[i])
  }

  /** What holds even between the events of one transaction. */
  ghost predicate CoreInv(s: Session) {
    && Numbered(s)
    && (forall c :: CommandAt(s, c))
    && StartsAccounted(s)
    && OneAtATime(s.log)
    && SilentAfterClose(s.log)
  }

  ghost predicate Inv(s: Session) {
    && CoreInv(s)
    && InLine(s.commands)
    && (if Live(s.status) then NeverClosed(s.log)
        else CloseCount(s.log) == 1 && AllTerminal(s.commands))
  }

  lemma CreatedInv(stale: bool)
    ensures Inv(Created(stale))
  {
  }

  lemma EndedStays(log: seq<Event>, e: Event, i: nat, j: nat, c: nat)
    requires EndedBetween(log, i, j, c)
    ensures EndedBetween(log + [e], i, j, c) && EndedBetween(log + [e], i, |log| + 1, c)
  {
    var k :| i < k < j && Ends(log[k], c);
    assert Ends((log + [e])[k], c);
  }

  lemma SerialKept(log: seq<Event>, e: Event)
    requires OneAtATime(log) && !IsStart(e)
    ensures OneAtATime(log + [e])
  {
    forall i: nat, j: nat ensures SerialAt(log + [e], i, j) {
      assert SerialAt(log, i, j);
      if i < j < |log| && IsStart(log[i]) && IsStart(log[j]) {
        EndedStays(log, e, i, j, log[i].data.command);
      }
    }
  }

  /** Publishing what is about no command of ours. */
  lemma PublishAside(s: Session, data: Data, posted: bool)
    requires CoreInv(s)
    requires posted || (!data.CommandStarted? && !data.CommandFinished? && !data.CommandFailed?)
    ensures CoreInv(Publish(s, data, posted))
    ensures CloseCount(Publish(s, data, posted).log) ==
            CloseCount(s.log) + if !posted && data.SessionClosed? then 1 else 0
    ensures NeverClosed(s.log) && (posted || !data.SessionClosed?) ==> NeverClosed(Publish(s, data, posted).log)
  {
    var e := Event(s.lastSeq + 1, data, posted);
    var s' := Publish(s, data, posted);
    CountsAdd(s.log, e, 0);
    forall c ensures CommandAt(s', c) {
      assert CommandAt(s, c);
      CountsAdd(s.log, e, c);
    }
    SerialKept(s.log, e);
    forall i: nat ensures AccountedAt(s', i) { AccountedKept(s, e, i); }
  }

  lemma AccountedKept(s: Session, e: Event, i: nat)
    requires AccountedAt(s, i) && !IsStart(e)
    ensures AccountedAt(s.(log := s.log + [e]), i)
  {
    if i < |s.log| && IsStart(s.log[i]) {
      var c := s.log[i].data.command;
      if EndedBetween(s.log, i, |s.log|, c) { EndedStays(s.log, e, i, |s.log|, c); }
    }
  }

  /** A row that changes together with the event that says so. */
  lemma CommandMoves(s: Session, c: nat, status: CommandStatus, e: Event, d: nat)
    requires CommandAt(s, d) && c < |s.commands| && !Terminal(s.commands[c])
    requires if status == Started then s.commands[c] == Queued && Starts(e, c) else Terminal(status) && Ends(e, c)
    ensures CommandAt(s.(commands := s.commands[c := status], log := s.log + [e]), d)
  {
    CountsAdd(s.log, e, d);
  }

  lemma AccountedAfterEnd(s: Session, c: nat, status: CommandStatus, e: Event, i: nat)
    requires AccountedAt(s, i) && c < |s.commands| && Terminal(status) && Ends(e, c)
    ensures AccountedAt(s.(commands := s.commands[c := status], log := s.log + [e]), i)
  {
    AccountedKept(s, e, i);
    var log' := s.log + [e];
    if i < |s.log| { assert Ends(log'[|s.log|], c); }
  }

  lemma NeverClosedKept(log: seq<Event>, e: Event)
    requires NeverClosed(log) && !Closes(e)
    ensures NeverClosed(log + [e]) && SilentAfterClose(log + [e])
  {
    CountsAdd(log, e, 0);
  }

  /** Publishing the end of a command that has not ended, with its new row. */
  lemma PublishEnd(s: Session, c: nat, status: CommandStatus, data: Data)
    requires CoreInv(s) && NeverClosed(s.log) && c < |s.commands| && !Terminal(s.commands[c]) && Terminal(status)
    requires (data.CommandFinished? || data.CommandFailed?) && data.command == c
    ensures CoreInv(Publish(s.(commands := s.commands[c := status]), data, false))
  {
    var e := Event(s.lastSeq + 1, data, false);
    var s0 := s.(commands := s.commands[c := status], log := s.log + [e]);
    forall d ensures CommandAt(s0, d) {
      assert CommandAt(s, d);
      CommandMoves(s, c, status, e, d);
    }
    forall i: nat ensures AccountedAt(s0, i) {
      assert AccountedAt(s, i);
      AccountedAfterEnd(s, c, status, e, i);
    }
    SerialKept(s.log, e);
    NeverClosedKept(s.log, e);
    SequenceMoves(s0, s0.lastSeq + 1);
  }

  lemma StaysOpen(s: Session, data: Data)
    requires NeverClosed(s.log) && !data.SessionClosed?
    ensures NeverClosed(Publish(s, data, false).log)
  {
    NeverClosedKept(s.log, Event(s.lastSeq + 1, data, false));
  }

  /** Only the numbering looks at the sequence counter. */
  lemma SequenceMoves(s: Session, lastSeq: nat)
    requires (forall c :: CommandAt(s, c)) && StartsAccounted(s)
    ensures (forall c :: CommandAt(s.(lastSeq := lastSeq), c)) && StartsAccounted(s.(lastSeq := lastSeq))
  {
    forall c ensures CommandAt(s.(lastSeq := lastSeq), c) { assert CommandAt(s, c); }
    forall i: nat ensures AccountedAt(s.(lastSeq := lastSeq), i) { assert AccountedAt(s, i); }
  }

  lemma AccountedAfterStart(s: Session, c: nat, e: Event, i: nat)
    requires AccountedAt(s, i) && InLine(s.commands) && Started !in s.commands
    requires c < |s.commands| && s.commands[c] == Queued && Starts(e, c)
    ensures AccountedAt(s.(commands := s.commands[c := Started], log := s.log + [e]), i)
    ensures SerialAt(s.log + [e], i, |s.log|)
  {
    if i < |s.log| && IsStart(s.log[i]) { StartFollows(s, e, i, c); }
  }

  lemma SerialAfterStart(log: seq<Event>, e: Event)
    requires OneAtATime(log) && forall i: nat :: SerialAt(log + [e], i, |log|)
    ensures OneAtATime(log + [e])
  {
    var log' := log + [e];
    forall i: nat, j: nat ensures SerialAt(log', i, j) {
      assert SerialAt(log, i, j) && SerialAt(log', i, |log|);
      if i < j < |log| && IsStart(log[i]) && IsStart(log[j]) {
        EndedStays(log, e, i, j, log[i].data.command);
      }
    }
  }

  /** Publishing a start: nothing else runs and everything earlier has begun. */
  lemma PublishStart(s: Session, c: nat)
    requires CoreInv(s) && NeverClosed(s.log) && InLine(s.commands)
    requires Started !in s.commands && c == FirstQueued(s.commands) < |s.commands|
    ensures CoreInv(Publish(s.(commands := s.commands[c := Started]), CommandStarted(c), false))
  {
    var e := Event(s.lastSeq + 1, CommandStarted(c), false);
    var s0 := s.(commands := s.commands[c := Started], log := s.log + [e]);
    forall d ensures CommandAt(s0, d) {
      assert CommandAt(s, d);
      CommandMoves(s, c, Started, e, d);
    }
    forall i: nat ensures AccountedAt(s0, i) && SerialAt(s0.log, i, |s.log|) {
      assert AccountedAt(s, i);
      AccountedAfterStart(s, c, e, i);
    }
    SerialAfterStart(s.log, e);
    NeverClosedKept(s.log, e);
    SequenceMoves(s0, s0.lastSeq + 1);
  }

  lemma StartFollows(s: Session, e: Event, i: nat, c: nat)
    requires AccountedAt(s, i) && i < |s.log| && IsStart(s.log[i])
    requires InLine(s.commands) && Started !in s.commands && c < |s.commands| && s.commands[c] == Queued
    ensures s.log[i].data.command < c
    ensures EndedBetween(s.log + [e], i, |s.log|, s.log[i].data.command)
    ensures EndedBetween(s.log + [e], i, |s.log| + 1, s.log[i].data.command)
  {
    var d := s.log[i].data.command;
    assert s.commands[d] in s.commands;
    EndedStays(s.log, e, i, |s.log|, d);
  }

  /** Exactly the orphans fail. */
  lemma {:induction false} OrphanedCommands(s: Session, orphans: seq<nat>, error: string)
    requires OrphansOf(s.commands, orphans)
    ensures |Orphaned(s, orphans, error).commands| == |s.commands|
    ensures forall c :: 0 <= c < |s.commands| ==>
              Orphaned(s, orphans, error).commands[c] == if c in orphans then Failed else s.commands[c]
    decreases |orphans|
  {
    if orphans != [] {
      var front, c := orphans[..|orphans| - 1], orphans[|orphans| - 1];
      OrphanedCommands(s, front, error);
      assert orphans == front + [c];
    }
  }

  lemma {:induction false} OrphanedInv(s: Session, orphans: seq<nat>, error: string)
    requires CoreInv(s) && NeverClosed(s.log) && OrphansOf(s.commands, orphans)
    ensures CoreInv(Orphaned(s, orphans, error)) && NeverClosed(Orphaned(s, orphans, error).log)
    decreases |orphans|
  {
    if orphans != [] {
      var front, c := orphans[..|orphans| - 1], orphans[|orphans| - 1];
      OrphanedInv(s, front, error);
      OrphanedCommands(s, front, error);
      assert c !in front;
      PublishEnd(Orphaned(s, front, error), c, Failed, CommandFailed(c, error));
      StaysOpen(Orphaned(s, front, error), CommandFailed(c, error));
    }
  }

  ghost predicate OrphansOf(commands: seq<CommandStatus>, orphans: seq<nat>) {
    && (forall i :: 0 <= i < |orphans| ==> orphans[i] < |commands| && !Terminal(commands[orphans[i]]))
    && (forall i, j :: 0 <= i < j < |orphans| ==> orphans[i] != orphans[j])
  }

  /** The per-command and per-event parts do not look at the status. */
  lemma StatusMoves(s: Session, status: Status)
    requires CoreInv(s)
    ensures CoreInv(s.(status := status))
  {
    forall c ensures CommandAt(s.(status := status), c) { assert CommandAt(s, c); }
    forall i: nat ensures AccountedAt(s.(status := status), i) { assert AccountedAt(s, i); }
  }

  ghost predicate AllTerminal(commands: seq<CommandStatus>) {
    forall c :: 0 <= c < |commands| ==> Terminal(commands[c])
  }

  lemma OrphansAllEnd(s: Session, orphans: seq<nat>, error: string)
    requires CoreInv(s) && NeverClosed(s.log) && Lists(s.commands, orphans)
    ensures CoreInv(Orphaned(s, orphans, error)) && NeverClosed(Orphaned(s, orphans, error).log)
    ensures AllTerminal(Orphaned(s, orphans, error).commands)
  {
    OrphanedInv(s, orphans, error);
    OrphanedCommands(s, orphans, error);
  }

  lemma ClosingInv(s: Session, reason: Reason)
    requires CoreInv(s) && NeverClosed(s.log) && AllTerminal(s.commands) && !Live(s.status)
    ensures Inv(Publish(s, SessionClosed(reason), false))
  {
    PublishAside(s, SessionClosed(reason), false);
  }

  lemma EndInv(s: Session, reason: Reason, orphans: seq<nat>)
    requires Inv(s) && Lists(s.commands, orphans)
    ensures Inv(End(s, reason, orphans))
  {
    if Live(s.status) {
      var status := if reason == ByClose then Closed else Dead;
      StatusMoves(s, status);
      OrphansAllEnd(s.(status := status), orphans, Message(reason));
      OrphanedStatus(s.(status := status), orphans, Message(reason));
      ClosingInv(Orphaned(s.(status := status), orphans, Message(reason)), reason);
    }
  }

  lemma {:induction false} OrphanedStatus(s: Session, orphans: seq<nat>, error: string)
    ensures Orphaned(s, orphans, error).status == s.status
    decreases |orphans|
  {
    if orphans != [] { OrphanedStatus(s, orphans[..|orphans| - 1], error); }
  }

  lemma EnqueuedInv(s: Session)
    requires Inv(s)
    ensures Inv(Enqueued(s))
  {
    var s' := Enqueued(s);
    forall c ensures CommandAt(s', c) { assert CommandAt(s, c); }
    forall i: nat ensures AccountedAt(s', i) { assert AccountedAt(s, i); }
  }

  lemma CompletedInv(s: Session, c: nat, error: Option<string>, result: string)
    requires Inv(s)
    ensures Inv(Completed(s, c, error, result))
  {
    if c < |s.commands| && s.commands[c] == Started {
      match error
      case Some(e) => PublishEnd(s, c, Failed, CommandFailed(c, e));
      case None => PublishEnd(s, c, Finished, CommandFinished(c, result));
    }
  }

  lemma TakenInv(s: Session)
    requires Inv(s)
    ensures Inv(Taken(s).0)
  {
    var k := FirstQueued(s.commands);
    if Started !in s.commands && k < |s.commands| {
      PublishStart(s, k);
      StaysOpen(s.(commands := s.commands[k := Started]), CommandStarted(k));
      var next := s.commands[k := Started];
      forall i, j | 0 <= i < j < |next| ensures !(next[i] == Started && next[j] == Started) {
        assert s.commands[i] in s.commands && s.commands[j] in s.commands;
      }
    }
  }

  lemma ReadyInv(s: Session)
    requires Inv(s)
    ensures Inv(Ready(s))
  {
    if s.status == Pending {
      StatusMoves(s, Active);
      PublishAside(s.(status := Active), SessionReady(s.stale), false);
    }
  }

  lemma StepKeepsInv(s: Session, a: Act)
    requires Inv(s) && Enabled(s, a)
    ensures Inv(Step(s, a))
  {
    match a
    case MarkReady => ReadyInv(s);
    case RequestClose(orphans) => EndInv(s, ByClose, orphans);
    case Finish(reason, orphans) => EndInv(s, reason, orphans);
    case Enqueue => EnqueuedInv(s);
    case TakeNext => TakenInv(s);
    case Complete(c, error, result) => CompletedInv(s, c, error, result);
    case Post(data) => PublishAside(s, data, true);
  }

  // Whole runs.

  ghost predicate Run(tr: seq<Session>, acts: seq<Act>) {
    && |tr| == |acts| + 1
    && tr[0] == Created(tr[0].stale)
    && forall i: nat :: i < |acts| ==> StepAt(tr, acts, i)
  }

  ghost predicate StepAt(tr: seq<Session>, acts: seq<Act>, i: nat)
    requires i < |acts| && |tr| == |acts| + 1
  {
    Enabled(tr[i], acts[i]) && tr[i + 1] == Step(tr[i], acts[i])
  }

  lemma {:induction false} RunKeepsInv(tr: seq<Session>, acts: seq<Act>, n: nat)
    requires Run(tr, acts) && n <= |acts|
    ensures Inv(tr[n])
  {
    if n == 0 {
      CreatedInv(tr[0].stale);
    } else {
      RunKeepsInv(tr, acts, n - 1);
      assert StepAt(tr, acts, n - 1);
      StepKeepsInv(tr[n - 1], acts[n - 1]);
    }
  }

  /** After any run: events are numbered 1 to last_seq; and of the events that the
      server publishes itself, the starts are in queue order and one at a time,
      each accepted command has exactly one terminal event if its row is terminal
      and none before, and none is about a command after the session's close. */
  lemma WholeLog(tr: seq<Session>, acts: seq<Act>, n: nat, i: nat, j: nat, c: nat)
    requires Run(tr, acts) && n <= |acts|
    ensures var s := tr[n];
            && |s.log| == s.lastSeq && (i < |s.log| ==> s.log[i].number == i + 1)
            && SerialAt(s.log, i, j)
            && StartCount(s.log, c) <= 1
            && EndCount(s.log, c) == (if c < |s.commands| && Terminal(s.commands[c]) then 1 else 0)
            && (i < j < |s.log| && Closes(s.log[i]) ==> !AboutCommand(s.log[j]))
  {
    RunKeepsInv(tr, acts, n);
    assert CommandAt(tr[n], c) && SerialAt(tr[n].log, i, j);
  }

  /** Once the session is over the server has closed it exactly once and published
      one terminal event for every accepted command; before, it never closed it. */
  lemma OverMeansSettled(tr: seq<Session>, acts: seq<Act>, n: nat, c: nat)
    requires Run(tr, acts) && n <= |acts|
    ensures CloseCount(tr[n].log) == (if Live(tr[n].status) then 0 else 1)
    ensures !Live(tr[n].status) && c < |tr[n].commands| ==> EndCount(tr[n].log, c) == 1
  {
    RunKeepsInv(tr, acts, n);
    assert CommandAt(tr[n], c);
  }

  lemma StepExtends(s: Session, a: Act)
    ensures s.log <= Step(s, a).log
    ensures !Live(s.status) ==> Step(s, a).status == s.status
  {
    match a
    case RequestClose(orphans) => EndExtends(s, ByClose, orphans);
    case Finish(reason, orphans) => EndExtends(s, reason, orphans);
    case _ =>
  }

  lemma EndExtends(s: Session, reason: Reason, orphans: seq<nat>)
    ensures s.log <= End(s, reason, orphans).log
  {
    if Live(s.status) {
      OrphanedExtends(s.(status := if reason == ByClose then Closed else Dead), orphans, Message(reason));
    }
  }

  lemma {:induction false} OrphanedExtends(s: Session, orphans: seq<nat>, error: string)
    ensures s.log <= Orphaned(s, orphans, error).log
    decreases |orphans|
  {
    if orphans != [] { OrphanedExtends(s, orphans[..|orphans| - 1], error); }
  }

  /** The log only grows, and an ended session stays ended. */
  lemma {:induction false} LogOnlyGrows(tr: seq<Session>, acts: seq<Act>, i: nat, j: nat)
    requires Run(tr, acts) && i <= j <= |acts|
    ensures tr[i].log <= tr[j].log
    ensures !Live(tr[i].status) ==> tr[j].status == tr[i].status
  {
    if i < j {
      LogOnlyGrows(tr, acts, i, j - 1);
      assert StepAt(tr, acts, j - 1);
      StepExtends(tr[j - 1], acts[j - 1]);
    }
  }

  // The transactions as they update rows.

  class Row {
    var status: Status
    var stale: bool
    var lastSeq: nat
    var lastCommand: nat
    var commands: seq<CommandStatus>
    var log: seq<Event>

    function Abs(): Session
      reads this
    {
      Session(status, stale, lastSeq, lastCommand, commands, log)
    }

    constructor (stale: bool)
      ensures Abs() == Created(stale)
    {
      status, lastSeq, lastCommand, commands, log := Pending, 0, 0, [], [];
      this.stale := stale;
    }

    method Append(data: Data, posted: bool)
      modifies this`lastSeq, this`log
      ensures Abs() == Publish(old(Abs()), data, posted)
    {
      lastSeq := lastSeq + 1;
      log := log + [Event(lastSeq, data, posted)];
    }

    method MarkReady()
      modifies this
      ensures Abs() == Ready(old(Abs()))
      ensures old(status) == Pending ==> log == old(log) + [Event(old(lastSeq) + 1, SessionReady(stale), false)]
    {
      if status == Pending {
        status := Active;
        Append(SessionReady(stale), false);
      }
    }

    method Enqueue() returns (accepted: Option<nat>)
      modifies this
      ensures Abs() == Enqueued(old(Abs()))
      ensures accepted == if Live(old(status)) then Some(old(lastCommand) + 1) else None
      ensures commands == if Live(old(status)) then old(commands) + [Queued] else old(commands)
    {
      if !Live(status) { return None; }
      lastCommand := lastCommand + 1;
      commands := commands + [Queued];
      return Some(lastCommand);
    }

    method TakeNext() returns (taken: Option<nat>)
      modifies this
      ensures (Abs(), taken) == Taken(old(Abs()))
      ensures taken.None? <==> Started in old(commands) || Queued !in old(commands)
      ensures taken.Some? ==> taken.value < |old(commands)| && commands == old(commands)[taken.value := Started]
                              && log == old(log) + [Event(old(lastSeq) + 1, CommandStarted(taken.value), false)]
    {
      if Started in commands { return None; }
      var k := 0;
      while k < |commands| && commands[k] != Queued
        invariant 0 <= k <= |commands|
        invariant forall i :: 0 <= i < k ==> commands[i] != Queued
      {
        k := k + 1;
      }
      assert k == FirstQueued(commands);
      if k == |commands| { return None; }
      commands := commands[k := Started];
      Append(CommandStarted(k), false);
      return Some(k);
    }

    method Complete(c: nat, error: Option<string>, result: string) returns (changed: bool)
      modifies this
      ensures Abs() == Completed(old(Abs()), c, error, result)
      ensures changed <==> c < |old(commands)| && old(commands)[c] == Started
      ensures changed ==> commands == old(commands)[c := if error.None? then Finished else Failed]
      ensures changed ==> log == old(log) + [Event(old(lastSeq) + 1, if error.None? then CommandFinished(c, result)
                                                                     else CommandFailed(c, error.value), false)]
    {
      if c >= |commands| || commands[c] != Started { return false; }
      match error {
        case Some(e) =>
          commands := commands[c := Failed];
          Append(CommandFailed(c, e), false);
        case None =>
          commands := commands[c := Finished];
          Append(CommandFinished(c, result), false);
      }
      return true;
    }

    method Finish(reason: Reason, orphans: seq<nat>)
      requires Lists(commands, orphans)
      modifies this
      ensures Abs() == End(old(Abs()), reason, orphans)
    {
      if !Live(status) { return; }
      status := if reason == ByClose then Closed else Dead;
      ghost var s := Abs();
      for n := 0 to |orphans|
        invariant Abs() == Orphaned(s, orphans[..n], Message(reason))
      {
        assert orphans[..n + 1][..n] == orphans[..n];
        if orphans[n] < |commands| { commands := commands[orphans[n] := Failed]; }
        Append(CommandFailed(orphans[n], Message(reason)), false);
      }
      assert orphans[..|orphans|] == orphans;
      Append(SessionClosed(reason), false);
    }

    /** True when the close is left to the runner. */
    method RequestClose(orphans: seq<nat>) returns (asked: bool)
      requires Lists(commands, orphans)
      modifies this
      ensures Abs() == CloseRequested(old(Abs()), orphans)
      ensures asked <==> old(status) == Active
    {
      if status == Pending {
        Finish(ByClose, orphans);
        return false;
      }
      return Live(status);
    }
  }
}
