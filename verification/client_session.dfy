/**
 How the client settles the futures of its commands, whatever the order in
 which the reply to a submission, the command's terminal event, the end of the
 session, a close and a detach come.
 */
module ClientSession {
  import opened Options

  type Id = nat
  type Command = nat

  datatype Outcome = Value(result: string) | Error(message: string)

  /** Why a future failed without an event of its own. */
  const DEAD := Error("session is closed")

  /** `calls` are the submissions under way. `failed` collects the commands that
      were failed because the session was over. `aborted` tells that the reader
      has given up, `misled` that a close came before the session's own end: a
      runner may post one. The last fields are what the run is judged by: which
      ids the server has answered with, what it accepted and whether it closed
      the session, and for each id the outcome that decides, of the terminal
      events processed so far: the last that came before the answer, or else the
      first after it. A runner may post terminal events too, for any id. */
  datatype Client = Client(
    futures: seq<Option<Outcome>>,
    calls: set<Command>,
    pending: map<Id, Command>,
    stash: map<Id, Outcome>,
    closed: bool,
    detached: bool,
    letGo: bool,
    finished: bool,
    aborted: bool,
    misled: bool,
    failed: set<Command>,
    replied: map<Command, Id>,
    answered: set<Id>,
    server: map<Command, Id>,
    serverClosed: bool,
    got: map<Id, Outcome>)

  datatype Act =
    | Call
    | Prepare(k: Command)
    | Refuse(k: Command, message: string)
    | ServerAccepts(k: Command, id: Id)
    | ServerCloses
    | Reply(k: Command)
    | Terminal(id: Id, outcome: Outcome)
    | ClosedEvent
    | EndReader
    | Close
    | Detach
    | LetGoEnds

  const NEW :=
    Client([], {}, map[], map[], false, false, false, false, false, false, {}, map[], {}, map[], false, map[])

  predicate Over(c: Client) {
    c.closed || c.detached || c.finished
  }

  /** A future is set once; later attempts are ignored. */
  function Settle(futures: seq<Option<Outcome>>, k: Command, o: Outcome): seq<Option<Outcome>> {
    if k < |futures| && futures[k].None? then futures[k := Some(o)] else futures
  }

  function Fail(c: Client, k: Command, o: Outcome): Client {
    c.(futures := Settle(c.futures, k, o), calls := c.calls - {k})
  }

  predicate Pending(c: Client, k: Command) {
    k in c.pending.Values
  }

  function FailPending(c: Client): Client {
    c.(futures := seq(|c.futures|, k requires 0 <= k < |c.futures| =>
                    if k in c.pending.Values && c.futures[k].None? then Some(DEAD) else c.futures[k]),
       failed := c.failed + c.pending.Values,
       pending := map[])
  }

  /** The submission once its arguments are ready. */
  function Prepared(c: Client, k: Command): Client {
    if Over(c) then Fail(c, k, DEAD).(failed := c.failed + {k}) else c
  }

  /** The event came first: the reply settles the command with it. */
  function FromStash(c: Client, k: Command, id: Id): Client
    requires id in c.stash
  {
    c.(calls := c.calls - {k}, replied := c.replied[k := id], answered := c.answered + {id},
       stash := c.stash - {id}, futures := Settle(c.futures, k, c.stash[id]))
  }

  function TooLate(c: Client, k: Command, id: Id): Client {
    c.(calls := c.calls - {k}, replied := c.replied[k := id], answered := c.answered + {id},
       futures := Settle(c.futures, k, DEAD), failed := c.failed + {k})
  }

  function Await(c: Client, k: Command, id: Id): Client {
    c.(calls := c.calls - {k}, replied := c.replied[k := id], answered := c.answered + {id},
       pending := c.pending[id := k])
  }

  /** The submission once the server's acceptance has arrived. */
  function Accepted(c: Client, k: Command, id: Id): Client {
    if id in c.stash then FromStash(c, k, id) else if Over(c) then TooLate(c, k, id) else Await(c, k, id)
  }

  function Settled(c: Client, id: Id, o: Outcome): Client
    requires id in c.pending
  {
    c.(pending := c.pending - {id}, futures := Settle(c.futures, c.pending[id], o), got := c.got[id := o])
  }

  function Stashed(c: Client, id: Id, o: Outcome): Client {
    c.(stash := c.stash[id := o], got := if id in c.answered && id in c.got then c.got else c.got[id := o])
  }

  function OnTerminal(c: Client, id: Id, o: Outcome): Client {
    if id in c.pending then Settled(c, id, o) else Stashed(c, id, o)
  }

  /** The reader goes on after a close: a connection that breaks is made anew. */
  predicate Reads(c: Client) {
    !c.detached && !c.aborted
  }

  /** The server has closed the session, and the end of every command it
      accepted has been processed. */
  ghost predicate AllEnded(c: Client) {
    c.serverClosed && forall k :: k in c.server ==> c.server[k] in c.got
  }

  ghost function Closing(c: Client): Client {
    c.(finished := true, misled := c.misled || !AllEnded(c))
  }

  ghost predicate Enabled(c: Client, a: Act) {
    match a
    case Call => true
    case Prepare(k) => k in c.calls && k !in c.server
    case Refuse(k, _) => k in c.calls
    case ServerAccepts(k, id) => k in c.calls && k !in c.server && id !in c.server.Values && !c.serverClosed
    case ServerCloses => !c.serverClosed
    case Reply(k) => k in c.calls && k in c.server
    case Terminal(_, _) => Reads(c)
    case ClosedEvent => Reads(c)
    case EndReader => Reads(c)
    case Close => !c.closed && !c.detached
    case Detach => !c.detached
    case LetGoEnds => c.detached && !c.letGo
  }

  ghost function Step(c: Client, a: Act): Client
    requires Enabled(c, a)
  {
    match a
    case Call => c.(futures := c.futures + [None], calls := c.calls + {|c.futures|})
    case Prepare(k) => Prepared(c, k)
    case Refuse(k, message) => Fail(c, k, Error(message))
    case ServerAccepts(k, id) => c.(server := c.server[k := id])
    case ServerCloses => c.(serverClosed := true)
    case Reply(k) => Accepted(c, k, c.server[k])
    case Terminal(id, o) => OnTerminal(c, id, o)
    case ClosedEvent => FailPending(Closing(c))
    case EndReader => FailPending(c.(finished := true, aborted := true))
    case Close => c.(closed := true)
    case Detach => c.(detached := true)
    case LetGoEnds => FailPending(c.(letGo := true))
  }

  // The invariant, command by command.

  /** Where a command stands: being submitted, pending, or settled; settled with
      its own result unless it was failed because the session was over. */
  predicate CommandAt(c: Client, k: Command) {
    && (k in c.calls || k in c.server || k in c.replied || k in c.failed ==> k < |c.futures|)
    && (k in c.calls ==> c.futures[k].None? && k !in c.replied && k !in c.failed)
    && (k in c.replied ==> k in c.server && c.replied[k] == c.server[k])
    && (k in c.failed ==> c.futures[k] == Some(DEAD))
    && (k < |c.futures| && k !in c.calls && k !in c.replied ==> c.futures[k].Some?)
    && (k in c.replied && k !in c.failed ==> OwnResult(c, k))
    // Nobody is told that the session died while it had not.
    && (k in c.failed ==> c.closed || c.detached || c.aborted || c.misled || (c.serverClosed && k !in c.server))
  }

  /** Unsettled and pending until its event comes, and then its event's outcome. */
  predicate OwnResult(c: Client, k: Command)
    requires k in c.replied && k < |c.futures|
  {
    var id := c.replied[k];
    if id in c.got then c.futures[k] == Some(c.got[id])
    else c.futures[k].None? && id in c.pending && c.pending[id] == k
  }

  predicate IdAt(c: Client, id: Id) {
    && (id in c.pending ==>
          var k := c.pending[id];
          k in c.replied && c.replied[k] == id && k in c.server && c.server[k] == id
          && k !in c.failed && id !in c.got && id !in c.stash && id in c.answered)
    && (id !in c.answered ==> (id in c.stash <==> id in c.got) && (id in c.stash ==> c.stash[id] == c.got[id]))
    && (id in c.answered ==> id in c.server.Values)
  }

  /** A command is answered when its reply has come; an event that came before
      that waits in the stash. */
  predicate StashAt(c: Client, k: Command) {
    && (k in c.server ==> (k in c.replied <==> c.server[k] in c.answered))
    && (k in c.server && k !in c.replied && c.server[k] in c.got ==> c.server[k] in c.stash)
  }

  ghost predicate Inv(c: Client) {
    && (forall k :: CommandAt(c, k) && StashAt(c, k))
    && (forall id :: IdAt(c, id))
    && (forall k, l :: k in c.server && l in c.server && c.server[k] == c.server[l] ==> k == l)
    && (c.finished || c.letGo ==> c.pending == map[])
    && (c.letGo ==> c.detached)
    && (c.finished && !c.aborted && !c.misled ==> AllEnded(c))
  }

  /** Nothing that command i's part of the invariant looks at has changed. */
  predicate SameFor(c: Client, d: Client, i: Command) {
    && (i < |c.futures| <==> i < |d.futures|) && (i < |c.futures| ==> d.futures[i] == c.futures[i])
    && (i in c.calls <==> i in d.calls) && (i in c.failed <==> i in d.failed)
    && (i in c.replied <==> i in d.replied) && (i in c.replied ==> d.replied[i] == c.replied[i])
    && d.server == c.server && d.got == c.got
    && (i in c.replied && c.replied[i] in c.pending && c.pending[c.replied[i]] == i ==>
          c.replied[i] in d.pending && d.pending[c.replied[i]] == i)
    && (i in c.server && c.server[i] in c.stash && i !in c.replied ==> c.server[i] in d.stash)
    && (i in c.server ==> (c.server[i] in c.answered <==> c.server[i] in d.answered))
    && (c.closed ==> d.closed) && (c.detached ==> d.detached) && (c.aborted ==> d.aborted)
    && (c.misled ==> d.misled) && (c.serverClosed ==> d.serverClosed)
  }

  lemma SameStays(c: Client, d: Client, i: Command)
    requires CommandAt(c, i) && StashAt(c, i) && SameFor(c, d, i)
    ensures CommandAt(d, i) && StashAt(d, i)
  {
  }

  predicate Apart(c: Client, k: Command, id: Id, i: Command) {
    && i != k && (i in c.server ==> c.server[i] != id)
    && (i in c.replied ==> i in c.server && c.replied[i] == c.server[i])
  }

  lemma TooLateOthers(c: Client, k: Command, id: Id, i: Command)
    requires Apart(c, k, id, i)
    ensures SameFor(c, TooLate(c, k, id), i)
  {
  }

  lemma AwaitOthers(c: Client, k: Command, id: Id, i: Command)
    requires Apart(c, k, id, i)
    ensures SameFor(c, Await(c, k, id), i)
  {
  }

  lemma ReplyOthersAt(c: Client, k: Command, id: Id, i: Command)
    requires CommandAt(c, i) && StashAt(c, i) && i != k && (i in c.server ==> c.server[i] != id)
    ensures CommandAt(Accepted(c, k, id), i) && StashAt(Accepted(c, k, id), i)
  {
    if id !in c.stash && Over(c) {
      TooLateOthers(c, k, id, i);
    } else if id !in c.stash {
      AwaitOthers(c, k, id, i);
    }
    SameStays(c, Accepted(c, k, id), i);
  }

  lemma ReplySelfAt(c: Client, k: Command, id: Id)
    requires CommandAt(c, k) && IdAt(c, id) && k in c.calls && k in c.server && c.server[k] == id
    requires id !in c.answered && (id in c.got ==> id in c.stash)
    requires c.finished && !c.aborted && !c.misled ==> c.serverClosed && id in c.got
    ensures CommandAt(Accepted(c, k, id), k) && StashAt(Accepted(c, k, id), k)
  {
    if id in c.stash {
      ReplyFromStash(c, k, id);
    } else if Over(c) {
      ReplyTooLate(c, k, id);
    } else {
      ReplyWaits(c, k, id);
    }
  }

  lemma ReplyFromStash(c: Client, k: Command, id: Id)
    requires CommandAt(c, k) && IdAt(c, id) && k in c.calls && k in c.server && c.server[k] == id && id in c.stash
    requires id !in c.answered
    ensures CommandAt(Accepted(c, k, id), k) && StashAt(Accepted(c, k, id), k)
  {
  }

  lemma ReplyTooLate(c: Client, k: Command, id: Id)
    requires CommandAt(c, k) && k in c.calls && k in c.server && c.server[k] == id && id !in c.stash && id !in c.got
    requires Over(c) && (c.finished ==> c.aborted || c.misled)
    ensures CommandAt(Accepted(c, k, id), k) && StashAt(Accepted(c, k, id), k)
  {
  }

  lemma ReplyWaits(c: Client, k: Command, id: Id)
    requires CommandAt(c, k) && k in c.calls && k in c.server && c.server[k] == id && id !in c.stash && id !in c.got
    requires !Over(c)
    ensures CommandAt(Accepted(c, k, id), k) && StashAt(Accepted(c, k, id), k)
  {
  }

  /** Nothing that this id's part of the invariant looks at has changed. */
  predicate SameId(c: Client, d: Client, i: Id) {
    && d.server == c.server && d.got == c.got
    && (i in d.pending ==> i in c.pending && c.pending[i] == d.pending[i])
    && (i in c.answered <==> i in d.answered)
    && (i !in c.answered ==> (i in d.stash <==> i in c.stash))
    && (i in d.stash ==> i in c.stash && c.stash[i] == d.stash[i])
    && (i in d.pending ==>
          var k := d.pending[i];
          (k in c.replied ==> k in d.replied && d.replied[k] == c.replied[k]) && (k in d.failed ==> k in c.failed))
  }

  lemma SameIdStays(c: Client, d: Client, i: Id)
    requires IdAt(c, i) && SameId(c, d, i)
    ensures IdAt(d, i)
  {
  }

  lemma ReplyOwnId(c: Client, k: Command, id: Id)
    requires IdAt(c, id) && k !in c.replied && k !in c.failed && k in c.server && c.server[k] == id
    requires id !in c.answered
    ensures IdAt(Accepted(c, k, id), id)
  {
    if id in c.stash {
      assert id !in FromStash(c, k, id).pending;
    } else if Over(c) {
      assert id !in TooLate(c, k, id).pending;
    } else {
      assert Await(c, k, id).pending[id] == k && id !in c.got;
    }
  }

  lemma ReplyOtherId(c: Client, k: Command, id: Id, i: Id)
    requires IdAt(c, i) && i != id && k !in c.replied && k !in c.failed
    ensures IdAt(Accepted(c, k, id), i)
  {
    if id in c.stash {
      StashSameId(c, k, id, i);
      SameIdStays(c, FromStash(c, k, id), i);
    } else if Over(c) {
      SameIdStays(c, TooLate(c, k, id), i);
    } else {
      SameIdStays(c, Await(c, k, id), i);
    }
  }

  lemma StashSameId(c: Client, k: Command, id: Id, i: Id)
    requires id in c.stash && i != id && k !in c.replied
    ensures SameId(c, FromStash(c, k, id), i)
  {
  }

  lemma ReplyIdAt(c: Client, k: Command, id: Id, i: Id)
    requires IdAt(c, i) && k in c.calls && k !in c.replied && k !in c.failed && k in c.server && c.server[k] == id
    requires id !in c.answered
    ensures IdAt(Accepted(c, k, id), i)
  {
    if i == id {
      ReplyOwnId(c, k, id);
    } else {
      ReplyOtherId(c, k, id, i);
    }
  }

  lemma ReplyCommands(c: Client, k: Command)
    requires Inv(c) && Enabled(c, Reply(k))
    ensures forall i :: CommandAt(Accepted(c, k, c.server[k]), i) && StashAt(Accepted(c, k, c.server[k]), i)
  {
    var id := c.server[k];
    assert CommandAt(c, k) && StashAt(c, k) && IdAt(c, id);
    ReplySelfAt(c, k, id);
    forall i | i != k ensures CommandAt(Accepted(c, k, id), i) && StashAt(Accepted(c, k, id), i) {
      assert CommandAt(c, i) && StashAt(c, i);
      ReplyOthersAt(c, k, id, i);
    }
  }

  lemma ReplyRest(c: Client, k: Command, id: Id)
    ensures var d := Accepted(c, k, id);
            && d.server == c.server && d.got == c.got && d.serverClosed == c.serverClosed
            && d.answered == c.answered + {id}
            && d.finished == c.finished && d.aborted == c.aborted && d.misled == c.misled
            && d.letGo == c.letGo && d.detached == c.detached
            && (Over(c) ==> d.pending == c.pending)
  {
    if id in c.stash {
      assert FromStash(c, k, id).pending == c.pending;
    } else if Over(c) {
      assert TooLate(c, k, id).pending == c.pending;
    }
  }

  lemma ReplyInv(c: Client, k: Command)
    requires Inv(c) && Enabled(c, Reply(k))
    ensures Inv(Accepted(c, k, c.server[k]))
  {
    var d := Accepted(c, k, c.server[k]);
    ReplyCommands(c, k);
    ReplyRest(c, k, c.server[k]);
    assert CommandAt(c, k) && StashAt(c, k);
    forall i ensures IdAt(d, i) {
      assert IdAt(c, i);
      ReplyIdAt(c, k, c.server[k], i);
    }
  }

  lemma TerminalAt(c: Client, id: Id, o: Outcome, k: Command)
    requires CommandAt(c, k) && StashAt(c, k) && IdAt(c, id)
    requires id in c.pending ==> CommandAt(c, c.pending[id])
    requires id in c.pending && k in c.server && c.server[k] == id ==> c.pending[id] == k
    ensures CommandAt(OnTerminal(c, id, o), k) && StashAt(OnTerminal(c, id, o), k)
  {
  }

  lemma TerminalIdAt(c: Client, id: Id, o: Outcome, i: Id)
    requires IdAt(c, id) && IdAt(c, i)
    ensures IdAt(OnTerminal(c, id, o), i)
  {
    if id in c.pending {
      assert OnTerminal(c, id, o) == Settled(c, id, o);
    } else {
      assert OnTerminal(c, id, o) == Stashed(c, id, o);
    }
  }

  lemma TerminalRest(c: Client, id: Id, o: Outcome)
    ensures var d := OnTerminal(c, id, o);
            && d.server == c.server && d.serverClosed == c.serverClosed && d.finished == c.finished
            && d.aborted == c.aborted && d.misled == c.misled && d.letGo == c.letGo && d.detached == c.detached
            && (forall i :: i in c.got ==> i in d.got) && (c.pending == map[] ==> d.pending == map[])
  {
    if id in c.pending {
      assert OnTerminal(c, id, o) == Settled(c, id, o);
    } else {
      assert OnTerminal(c, id, o) == Stashed(c, id, o);
    }
  }

  lemma TerminalInv(c: Client, id: Id, o: Outcome)
    requires Inv(c) && Enabled(c, Terminal(id, o))
    ensures Inv(OnTerminal(c, id, o))
  {
    assert IdAt(c, id);
    if id in c.pending { assert CommandAt(c, c.pending[id]); }
    forall k ensures CommandAt(OnTerminal(c, id, o), k) && StashAt(OnTerminal(c, id, o), k) {
      assert CommandAt(c, k) && StashAt(c, k);
      TerminalAt(c, id, o, k);
    }
    forall i ensures IdAt(OnTerminal(c, id, o), i) {
      assert IdAt(c, i);
      TerminalIdAt(c, id, o, i);
    }
    TerminalRest(c, id, o);
  }

  lemma FailPendingAt(c: Client, k: Command)
    requires CommandAt(c, k) && StashAt(c, k)
    requires forall id :: id in c.pending ==> IdAt(c, id) && CommandAt(c, c.pending[id])
    requires c.pending != map[] ==> c.closed || c.detached || c.aborted || c.misled
    ensures CommandAt(FailPending(c), k) && StashAt(FailPending(c), k)
  {
    if k in c.pending.Values {
      var id :| id in c.pending && c.pending[id] == k;
      assert IdAt(c, id);
    }
  }

  /** What an end of the session needs before the pending commands are failed. */
  ghost predicate Ending(c: Client) {
    && (forall k :: CommandAt(c, k) && StashAt(c, k))
    && (forall id :: IdAt(c, id))
    && (forall k, l :: k in c.server && l in c.server && c.server[k] == c.server[l] ==> k == l)
    && (c.pending != map[] ==> c.closed || c.detached || c.aborted || c.misled)
    && (c.letGo ==> c.detached)
    && (c.finished && !c.aborted && !c.misled ==> AllEnded(c))
  }

  lemma FailPendingInv(c: Client)
    requires Ending(c)
    ensures Inv(FailPending(c))
  {
    var d := FailPending(c);
    forall k ensures CommandAt(d, k) && StashAt(d, k) {
      assert CommandAt(c, k) && StashAt(c, k);
      FailPendingAt(c, k);
    }
    forall id ensures IdAt(d, id) {
      assert IdAt(c, id);
      SameIdStays(c, d, id);
    }
  }

  /** When the close comes out of the log, nothing is pending any more. */
  lemma NothingPendingAtClose(c: Client)
    requires Inv(c) && AllEnded(c)
    ensures c.pending == map[]
  {
    forall id ensures id !in c.pending { assert IdAt(c, id); }
  }

  lemma EndingInv(c: Client, a: Act)
    requires Inv(c) && Enabled(c, a) && (a.ClosedEvent? || a.EndReader? || a.LetGoEnds?)
    ensures Inv(Step(c, a))
  {
    var d := match a
      case ClosedEvent => Closing(c)
      case EndReader => c.(finished := true, aborted := true)
      case _ => c.(letGo := true);
    if a.ClosedEvent? && AllEnded(c) { NothingPendingAtClose(c); }
    forall k ensures CommandAt(d, k) && StashAt(d, k) { assert CommandAt(c, k) && StashAt(c, k); }
    forall id ensures IdAt(d, id) { assert IdAt(c, id); }
    FailPendingInv(d);
  }

  lemma CalledAt(c: Client, k: Command)
    requires CommandAt(c, k) && StashAt(c, k)
    ensures CommandAt(Step(c, Call), k) && StashAt(Step(c, Call), k)
  {
    if k != |c.futures| { SameStays(c, Step(c, Call), k); }
  }

  lemma FailedAt(c: Client, j: Command, o: Outcome, over: bool, k: Command)
    requires CommandAt(c, k) && StashAt(c, k) && j in c.calls
    requires over ==> j !in c.server && o == DEAD && (c.closed || c.detached || c.aborted || c.misled || c.serverClosed)
    ensures var d := Fail(c, j, o).(failed := if over then c.failed + {j} else c.failed);
            CommandAt(d, k) && StashAt(d, k)
  {
    var d := Fail(c, j, o).(failed := if over then c.failed + {j} else c.failed);
    if k != j { SameStays(c, d, k); }
  }

  lemma SubmissionAt(c: Client, a: Act, k: Command)
    requires CommandAt(c, k) && StashAt(c, k) && Enabled(c, a) && (a.Call? || a.Prepare? || a.Refuse?)
    requires c.finished && !c.aborted && !c.misled ==> c.serverClosed
    ensures CommandAt(Step(c, a), k) && StashAt(Step(c, a), k)
  {
    match a
    case Call => CalledAt(c, k);
    case Prepare(j) => if Over(c) { FailedAt(c, j, DEAD, true, k); }
    case Refuse(j, message) => FailedAt(c, j, Error(message), false, k);
  }

  lemma SubmissionInv(c: Client, a: Act)
    requires Inv(c) && Enabled(c, a) && (a.Call? || a.Prepare? || a.Refuse?)
    ensures Inv(Step(c, a))
  {
    var d := Step(c, a);
    forall k ensures CommandAt(d, k) && StashAt(d, k) {
      assert CommandAt(c, k) && StashAt(c, k);
      SubmissionAt(c, a, k);
    }
    forall id ensures IdAt(d, id) {
      assert IdAt(c, id);
      SameIdStays(c, d, id);
    }
  }

  lemma ServerAcceptsAt(c: Client, j: Command, id: Id, k: Command)
    requires CommandAt(c, k) && StashAt(c, k) && Enabled(c, ServerAccepts(j, id)) && IdAt(c, id)
    ensures CommandAt(Step(c, ServerAccepts(j, id)), k) && StashAt(Step(c, ServerAccepts(j, id)), k)
  {
  }

  lemma ServerAcceptsId(c: Client, j: Command, id: Id, i: Id)
    requires IdAt(c, i) && j !in c.server
    ensures IdAt(c.(server := c.server[j := id]), i)
  {
    if i in c.answered {
      var k :| k in c.server && c.server[k] == i;
      assert k in c.server[j := id] && c.server[j := id][k] == i;
    }
  }

  lemma ServerAcceptsInv(c: Client, j: Command, id: Id)
    requires Inv(c) && Enabled(c, ServerAccepts(j, id))
    ensures Inv(Step(c, ServerAccepts(j, id)))
  {
    var d := Step(c, ServerAccepts(j, id));
    assert IdAt(c, id);
    forall k ensures CommandAt(d, k) && StashAt(d, k) {
      assert CommandAt(c, k) && StashAt(c, k);
      ServerAcceptsAt(c, j, id, k);
    }
    forall i ensures IdAt(d, i) {
      assert IdAt(c, i);
      ServerAcceptsId(c, j, id, i);
    }
  }

  lemma FlagsInv(c: Client, a: Act)
    requires Inv(c) && Enabled(c, a) && (a.ServerCloses? || a.Close? || a.Detach?)
    ensures Inv(Step(c, a))
  {
    var d := Step(c, a);
    forall k ensures CommandAt(d, k) && StashAt(d, k) {
      assert CommandAt(c, k) && StashAt(c, k);
      SameStays(c, d, k);
    }
    forall id ensures IdAt(d, id) {
      assert IdAt(c, id);
      SameIdStays(c, d, id);
    }
  }

  lemma StepKeepsInv(c: Client, a: Act)
    requires Inv(c) && Enabled(c, a)
    ensures Inv(Step(c, a))
  {
    match a
    case Reply(k) => ReplyInv(c, k);
    case Terminal(id, o) => TerminalInv(c, id, o);
    case ClosedEvent => EndingInv(c, a);
    case EndReader => EndingInv(c, a);
    case LetGoEnds => EndingInv(c, a);
    case Call => SubmissionInv(c, a);
    case Prepare(_) => SubmissionInv(c, a);
    case Refuse(_, _) => SubmissionInv(c, a);
    case ServerAccepts(k, id) => ServerAcceptsInv(c, k, id);
    case _ => FlagsInv(c, a);
  }

  // Whole runs.

  ghost predicate StepAt(tr: seq<Client>, acts: seq<Act>, i: nat)
    requires i < |acts| && |tr| == |acts| + 1
  {
    Enabled(tr[i], acts[i]) && tr[i + 1] == Step(tr[i], acts[i])
  }

  ghost predicate Run(tr: seq<Client>, acts: seq<Act>) {
    && |tr| == |acts| + 1 && tr[0] == NEW
    && forall i: nat :: i < |acts| ==> StepAt(tr, acts, i)
  }

  lemma {:induction false} RunKeepsInv(tr: seq<Client>, acts: seq<Act>, n: nat)
    requires Run(tr, acts) && n <= |acts|
    ensures Inv(tr[n])
  {
    if n > 0 {
      RunKeepsInv(tr, acts, n - 1);
      assert StepAt(tr, acts, n - 1);
      StepKeepsInv(tr[n - 1], acts[n - 1]);
    }
  }

  /** Pending and stash never share an id. */
  lemma PendingAndStashDisjoint(tr: seq<Client>, acts: seq<Act>, n: nat, id: Id)
    requires Run(tr, acts) && n <= |acts|
    ensures !(id in tr[n].pending && id in tr[n].stash)
  {
    RunKeepsInv(tr, acts, n);
    assert IdAt(tr[n], id);
  }

  /** The submissions, replies and events of one step, and the command whose
      future they settle. */
  predicate Settles(c: Client, a: Act, k: Command) {
    match a
    case Refuse(j, _) => j == k
    case Prepare(j) => j == k && (c.closed || c.detached || c.finished)
    case Reply(j) => j == k && j in c.server && (c.server[j] in c.stash || c.closed || c.detached || c.finished)
    case Terminal(id, _) => id in c.pending && c.pending[id] == k
    case ClosedEvent => k in c.pending.Values
    case EndReader => k in c.pending.Values
    case LetGoEnds => k in c.pending.Values
    case _ => false
  }

  /** No future is ever settled a second time: whatever settles it finds it
      unsettled, so no outcome is dropped. */
  lemma SettledOnce(tr: seq<Client>, acts: seq<Act>, n: nat, k: Command)
    requires Run(tr, acts) && n < |acts| && Settles(tr[n], acts[n], k)
    ensures k < |tr[n].futures| && tr[n].futures[k].None?
  {
    RunKeepsInv(tr, acts, n);
    assert StepAt(tr, acts, n);
    assert CommandAt(tr[n], k);
    if acts[n].Terminal? { assert IdAt(tr[n], acts[n].id); }
    if k in tr[n].pending.Values {
      var id :| id in tr[n].pending && tr[n].pending[id] == k;
      assert IdAt(tr[n], id);
    }
  }

  /** A settled future is left as it is. */
  predicate KeepsFuture(c: Client, d: Client, k: Command) {
    k < |c.futures| && c.futures[k].Some? ==> k < |d.futures| && d.futures[k] == c.futures[k]
  }

  /** And an unsettled one is settled. */
  predicate SetsFuture(c: Client, d: Client, k: Command) {
    k < |c.futures| && c.futures[k].None? ==> k < |d.futures| && d.futures[k].Some?
  }

  lemma FailSets(c: Client, j: Command, o: Outcome, k: Command)
    ensures KeepsFuture(c, Fail(c, j, o), k) && (j == k ==> SetsFuture(c, Fail(c, j, o), k))
  {
  }

  lemma FailPendingSets(c: Client, k: Command)
    ensures KeepsFuture(c, FailPending(c), k) && (k in c.pending.Values ==> SetsFuture(c, FailPending(c), k))
  {
  }

  lemma AcceptedSets(c: Client, j: Command, id: Id, k: Command)
    ensures KeepsFuture(c, Accepted(c, j, id), k)
    ensures j == k && (id in c.stash || Over(c)) ==> SetsFuture(c, Accepted(c, j, id), k)
  {
    if id in c.stash {
      assert Accepted(c, j, id).futures == Settle(c.futures, j, c.stash[id]);
    } else {
      assert Accepted(c, j, id).futures == if Over(c) then Settle(c.futures, j, DEAD) else c.futures;
    }
  }

  lemma TerminalSets(c: Client, id: Id, o: Outcome, k: Command)
    ensures KeepsFuture(c, OnTerminal(c, id, o), k)
    ensures id in c.pending && c.pending[id] == k ==> SetsFuture(c, OnTerminal(c, id, o), k)
  {
    assert OnTerminal(c, id, o).futures == if id in c.pending then Settle(c.futures, c.pending[id], o) else c.futures;
  }

  lemma StepSets(c: Client, a: Act, k: Command)
    requires Enabled(c, a)
    ensures KeepsFuture(c, Step(c, a), k) && (Settles(c, a, k) ==> SetsFuture(c, Step(c, a), k))
  {
    match a
    case Prepare(j) => FailSets(c, j, DEAD, k);
    case Refuse(j, message) => FailSets(c, j, Error(message), k);
    case Reply(j) => AcceptedSets(c, j, c.server[j], k);
    case Terminal(id, o) => TerminalSets(c, id, o, k);
    case ClosedEvent => FailPendingSets(Closing(c), k);
    case EndReader => FailPendingSets(c.(finished := true, aborted := true), k);
    case LetGoEnds => FailPendingSets(c.(letGo := true), k);
    case _ =>
  }

  /** What a future once holds it holds for good. */
  lemma {:induction false} SettledStays(tr: seq<Client>, acts: seq<Act>, i: nat, n: nat, k: Command)
    requires Run(tr, acts) && i <= n <= |acts| && k < |tr[i].futures| && tr[i].futures[k].Some?
    ensures k < |tr[n].futures| && tr[n].futures[k] == tr[i].futures[k]
  {
    if i < n {
      SettledStays(tr, acts, i, n - 1, k);
      assert StepAt(tr, acts, n - 1);
      StepSets(tr[n - 1], acts[n - 1], k);
    }
  }

  /** What settles a future settles it for good: a submission that is ready or
      answered when the session is over for the client, an event, an end. And a
      refused submission leaves its caller the refusal. */
  lemma RefusalIsTold(tr: seq<Client>, acts: seq<Act>, i: nat, n: nat, k: Command)
    requires Run(tr, acts) && i < n <= |acts| && Settles(tr[i], acts[i], k)
    ensures k < |tr[n].futures| && tr[n].futures[k].Some?
    ensures acts[i].Refuse? ==> tr[n].futures[k] == Some(Error(acts[i].message))
  {
    SettledOnce(tr, acts, i, k);
    assert StepAt(tr, acts, i);
    StepSets(tr[i], acts[i], k);
    assert tr[i + 1] == Step(tr[i], acts[i]);
    SettledStays(tr, acts, i + 1, n, k);
  }

  /** Once the session is finished or let go, no accepted command is unsettled. */
  lemma NothingLeftUnsettled(tr: seq<Client>, acts: seq<Act>, n: nat, k: Command)
    requires Run(tr, acts) && n <= |acts| && (tr[n].finished || tr[n].letGo) && k in tr[n].replied
    ensures k < |tr[n].futures| && tr[n].futures[k].Some?
  {
    RunKeepsInv(tr, acts, n);
    assert CommandAt(tr[n], k);
  }

  /** An accepted command whose event was processed has that event's outcome,
      whichever of reply and event came first, unless it had been failed. */
  lemma OwnOutcome(tr: seq<Client>, acts: seq<Act>, n: nat, k: Command)
    requires Run(tr, acts) && n <= |acts| && k in tr[n].replied && tr[n].replied[k] in tr[n].got
    ensures k < |tr[n].futures|
    ensures k !in tr[n].failed ==> tr[n].futures[k] == Some(tr[n].got[tr[n].replied[k]])
    ensures k in tr[n].failed ==> tr[n].futures[k] == Some(DEAD)
  {
    RunKeepsInv(tr, acts, n);
    assert CommandAt(tr[n], k);
  }

  /** In a client that nobody closed or detached, whose stream was not refused
      and that no early close misled, no command that the server accepted is ever
      told that the session is dead: each one gets its own outcome, even across
      the session's close. What misleads is a close that the runner posted before
      the server's own, as EndToEnd.MisledByAPost shows of the log. */
  lemma NoFalseDeath(tr: seq<Client>, acts: seq<Act>, n: nat, k: Command)
    requires Run(tr, acts) && n <= |acts| && k in tr[n].replied
    requires !tr[n].closed && !tr[n].detached && !tr[n].aborted && !tr[n].misled
    ensures k < |tr[n].futures|
    ensures if tr[n].replied[k] in tr[n].got then tr[n].futures[k] == Some(tr[n].got[tr[n].replied[k]])
            else tr[n].futures[k].None? && !tr[n].finished
  {
    RunKeepsInv(tr, acts, n);
    assert CommandAt(tr[n], k);
  }

  /** A close that the runner posts over a live session does mislead: in every
      run, whatever is pending when it comes is told that the session is dead,
      although the server has the command and its session live. */
  lemma EarlyCloseMisleads(tr: seq<Client>, acts: seq<Act>, n: nat, k: Command)
    requires Run(tr, acts) && n < |acts| && acts[n].ClosedEvent?
    requires !tr[n].serverClosed && !tr[n].closed && k in tr[n].pending.Values
    ensures ToldDeadWhileLive(tr[n + 1], k) && tr[n + 1].misled
  {
    RunKeepsInv(tr, acts, n);
    assert StepAt(tr, acts, n);
    var id :| id in tr[n].pending && tr[n].pending[id] == k;
    assert IdAt(tr[n], id) && CommandAt(tr[n], k);
  }

  predicate ToldDeadWhileLive(c: Client, k: Command) {
    && k < |c.futures| && c.futures[k] == Some(DEAD)
    && k in c.replied && !c.serverClosed && !c.closed && !c.detached && !c.aborted
  }

  // The session object, as its methods and its reader change it.

  class Session {
    var futures: seq<Option<Outcome>>
    var pending: map<Id, Command>
    var stash: map<Id, Outcome>
    var closed: bool
    var detached: bool
    var finished: bool

    ghost predicate Mirrors(c: Client)
      reads this
    {
      futures == c.futures && pending == c.pending && stash == c.stash
      && closed == c.closed && detached == c.detached && finished == c.finished
    }

    constructor ()
      ensures Mirrors(NEW)
    {
      futures, pending, stash := [], map[], map[];
      closed, detached, finished := false, false, false;
    }

    method Put(k: Command, o: Outcome)
      modifies this`futures
      ensures futures == Settle(old(futures), k, o)
    {
      if k < |futures| && futures[k].None? { futures := futures[k := Some(o)]; }
    }

    /** After the server accepted the submission. */
    method OnAccepted(ghost c: Client, k: Command, id: Id)
      requires Mirrors(c)
      modifies this
      ensures Mirrors(Accepted(c, k, id))
    {
      if id in stash {
        var o := stash[id];
        stash := stash - {id};
        Put(k, o);
      } else if closed || detached || finished {
        Put(k, DEAD);
      } else {
        pending := pending[id := k];
      }
    }

    method OnTerminalEvent(ghost c: Client, id: Id, o: Outcome)
      requires Mirrors(c)
      modifies this
      ensures Mirrors(OnTerminal(c, id, o))
    {
      if id in pending {
        var k := pending[id];
        pending := pending - {id};
        Put(k, o);
      } else {
        stash := stash[id := o];
      }
    }

    /** Walks the pending commands, failing each, and forgets them. */
    method FailAll(ghost c: Client)
      requires Mirrors(c)
      modifies this
      ensures Mirrors(FailPending(c))
    {
      var todo := pending.Keys;
      while todo != {}
        invariant todo <= pending.Keys && Failing(c, futures, todo)
        invariant pending == c.pending && stash == c.stash
        invariant closed == c.closed && detached == c.detached && finished == c.finished
        decreases todo
      {
        var id :| id in todo;
        FailingNext(c, futures, todo, id);
        todo := todo - {id};
        Put(pending[id], DEAD);
      }
      FailingEnds(c, futures);
      pending := map[];
    }
  }

  /** The futures part of the way: `todo` are the ids not yet walked over. */
  ghost predicate Failing(c: Client, futures: seq<Option<Outcome>>, todo: set<Id>) {
    && |futures| == |c.futures|
    && forall k :: 0 <= k < |futures| ==> futures[k] == if FailedBy(c, todo, k) then Some(DEAD) else c.futures[k]
  }

  ghost predicate FailedBy(c: Client, todo: set<Id>, k: Command) {
    k < |c.futures| && c.futures[k].None? && exists id :: id in c.pending && id !in todo && c.pending[id] == k
  }

  lemma FailingNext(c: Client, futures: seq<Option<Outcome>>, todo: set<Id>, id: Id)
    requires Failing(c, futures, todo) && id in todo && id in c.pending
    ensures Failing(c, Settle(futures, c.pending[id], DEAD), todo - {id})
  {
    forall k | 0 <= k < |futures|
      ensures FailedBy(c, todo - {id}, k) <==> FailedBy(c, todo, k) || (c.futures[k].None? && c.pending[id] == k)
    {
      if FailedBy(c, todo - {id}, k) {
        var i :| i in c.pending && i !in todo - {id} && c.pending[i] == k;
      }
    }
  }

  lemma FailingEnds(c: Client, futures: seq<Option<Outcome>>)
    requires Failing(c, futures, {})
    ensures futures == FailPending(c).futures
  {
    forall k | 0 <= k < |futures| ensures FailedBy(c, {}, k) <==> c.futures[k].None? && k in c.pending.Values {
      if k in c.pending.Values {
        var id :| id in c.pending && c.pending[id] == k;
      }
    }
  }
}
