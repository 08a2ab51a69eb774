/**
 The write-behind task pool: queue, leases and statuses live in memory and
 the database is a projection that lags behind. Every function below is one
 stretch of server code between two suspension points, and `Step` is the
 choice among them. Database outcomes, lost requests and the order in which
 requests arrive are the environment's choice.
 */
module TaskPool {
  import opened Options

  type Id = string
  type Call = nat

  const LOST_AFTER: real := 300.0
  const MAX_PENDING_WRITES: nat := 50_000

  datatype Status = Pending | Running | Done | Failed | Cancelled | Lost

  predicate Finished(status: Status) {
    status != Pending && status != Running
  }

  predicate Reportable(status: Status) {
    status == Done || status == Failed || status == Cancelled
  }

  /** What the database stores about a task, its key aside. */
  datatype Row = Row(
    kind: string,
    payload: string,
    status: Status,
    worker: Option<string>,
    error: Option<string>,
    parent: Option<Id>,
    created: real,
    started: Option<real>,
    finished: Option<real>,
    cancelRequested: bool)

  /** A task in memory: its row and the two fields that are never stored. */
  datatype Task = Task(row: Row, lease: Option<string>, heartbeat: Option<real>)

  /** A flush suspended in the database: the ids it took, the rows it sent,
      and whether the database has applied them yet. */
  datatype Flight = Flight(ids: set<Id>, rows: map<Id, Row>, written: bool)

  /** `completing` counts the completion requests suspended between the lease
      check and the reading of their body. `waiting` holds the lease calls
      blocked on the arrival event, with whether they have been signalled. */
  datatype State = State(
    tasks: map<Id, Task>,
    queue: seq<Id>,
    dirty: set<Id>,
    flight: Option<Flight>,
    db: map<Id, Row>,
    recovered: bool,
    completing: multiset<Id>,
    arrived: bool,
    waiting: map<Call, bool>)

  datatype Act =
    | Create(id: Id, kind: string, payload: string, parent: Option<Id>, now: real, otherWrites: nat)
    | Retry(id: Id, copy: Id, now: real, dbUp: bool)
    | LeasePass(call: Call, worker: string, token: string, now: real, expired: bool)
    | LeaseTimeout(call: Call)
    | Heartbeat(id: Id, token: string, now: real)
    | CompleteBegin(id: Id, token: string)
    | CompleteEnd(id: Id, status: Status, error: Option<string>, now: real)
    | Cancel(id: Id, now: real, dbUp: bool)
    | Reap(now: real)
    | FlushBegin
    | FlushWrite
    | FlushOk
    | FlushFail
    | Recover(found: seq<Id>, now: real)

  function Boot(db: map<Id, Row>): State {
    State(map[], [], {}, None, db, false, multiset{}, false, map[])
  }

  function Rows(tasks: map<Id, Task>): map<Id, Row> {
    map i | i in tasks :: tasks[i].row
  }

  /** Memory laid over the database: what a lookup of any id answers. */
  function View(s: State): map<Id, Row> {
    s.db + Rows(s.tasks)
  }

  function Find(s: State, id: Id, dbUp: bool): Option<Task> {
    if id in s.tasks then Some(s.tasks[id])
    else if dbUp && id in s.db then Some(Task(s.db[id], None, None))
    else None
  }

  function NewRow(kind: string, payload: string, parent: Option<Id>, now: real): Row {
    Row(kind, payload, Pending, None, None, parent, now, None, None, false)
  }

  function Signalled(waiting: map<Call, bool>): map<Call, bool> {
    map c | c in waiting :: true
  }

  function Put(s: State, id: Id, task: Task): State {
    s.(tasks := s.tasks[id := task], dirty := s.dirty + {id})
  }

  function Enqueue(s: State, id: Id, row: Row): State {
    Put(s, id, Task(row, None, None)).(
      queue := s.queue + [id], arrived := true, waiting := Signalled(s.waiting))
  }

  predicate Overloaded(s: State, otherWrites: nat) {
    |s.dirty| + otherWrites >= MAX_PENDING_WRITES
  }

  function CreateTask(s: State, a: Act): State
    requires a.Create?
  {
    if Overloaded(s, a.otherWrites) then s
    else Enqueue(s, a.id, NewRow(a.kind, a.payload, a.parent, a.now))
  }

  function RetryTask(s: State, a: Act): State
    requires a.Retry?
  {
    match Find(s, a.id, a.dbUp)
    case None => s
    case Some(t) => Enqueue(s, a.copy, NewRow(t.row.kind, t.row.payload, Some(a.id), a.now))
  }

  predicate PendingIn(tasks: map<Id, Task>, id: Id) {
    id in tasks && tasks[id].row.status == Pending
  }

  /** The position of the first entry of the queue that is still pending. */
  function NextPending(tasks: map<Id, Task>, queue: seq<Id>): (k: nat)
    ensures k <= |queue|
    ensures k < |queue| ==> PendingIn(tasks, queue[k])
    ensures forall j :: 0 <= j < k ==> !PendingIn(tasks, queue[j])
  {
    if queue == [] then 0
    else if PendingIn(tasks, queue[0]) then 0
    else 1 + NextPending(tasks, queue[1..])
  }

  function Leased(t: Task, worker: string, token: string, now: real): Task {
    Task(t.row.(status := Running, worker := Some(worker), started := Some(now)),
         Some(token), Some(now))
  }

  /** Hands out the oldest pending task, dropping the stale entries before it. */
  function Grab(s: State, worker: string, token: string, now: real): (State, Option<Id>) {
    var k := NextPending(s.tasks, s.queue);
    if k == |s.queue| then (s.(queue := []), None)
    else
      var id := s.queue[k];
      (Put(s, id, Leased(s.tasks[id], worker, token, now)).(queue := s.queue[k + 1..]), Some(id))
  }

  /** One pass of the long poll. A call woken by the event clears it first. */
  function Pass(s: State, a: Act): State
    requires a.LeasePass?
  {
    var s0 := if a.call in s.waiting then s.(arrived := false) else s;
    var (s1, got) := Grab(s0, a.worker, a.token, a.now);
    if got.Some? || a.expired then s1.(waiting := s1.waiting - {a.call})
    else s1.(waiting := s1.waiting[a.call := s1.arrived])
  }

  /** The lease check: the state after it, or nothing when it is refused. An
      unleased running task is adopted by the first token presented. */
  function Owned(s: State, id: Id, token: string): Option<State> {
    if id !in s.tasks || token == "" then None
    else
      var t := s.tasks[id];
      if t.lease == None && t.row.status == Running then
        Some(s.(tasks := s.tasks[id := t.(lease := Some(token))]))
      else if t.lease == Some(token) then Some(s)
      else None
  }

  function Beat(s: State, a: Act): State
    requires a.Heartbeat?
  {
    match Owned(s, a.id, a.token)
    case None => s
    case Some(o) =>
      if a.id in o.tasks then o.(tasks := o.tasks[a.id := o.tasks[a.id].(heartbeat := Some(a.now))]) else o
  }

  function BeginComplete(s: State, a: Act): State
    requires a.CompleteBegin?
  {
    match Owned(s, a.id, a.token)
    case None => s
    case Some(o) => o.(completing := o.completing + multiset{a.id})
  }

  function Ended(t: Task, status: Status, error: Option<string>, now: real): Task {
    t.(row := t.row.(status := status, error := error, finished := Some(now)), lease := None)
  }

  /** The rest of a completion. A task that is no longer in memory was
      finished before it was evicted, so nothing is left to do for it. */
  function EndComplete(s: State, a: Act): State
    requires a.CompleteEnd?
  {
    var s0 := s.(completing := s.completing - multiset{a.id});
    if !Reportable(a.status) || a.id !in s.tasks || Finished(s.tasks[a.id].row.status) then s0
    else Put(s0, a.id, Ended(s.tasks[a.id], a.status, a.error, a.now))
  }

  function CancelTask(s: State, a: Act): State
    requires a.Cancel?
  {
    match Find(s, a.id, a.dbUp)
    case None => s
    case Some(t) =>
      if t.row.status == Pending then
        Put(s, a.id, t.(row := t.row.(status := Cancelled, finished := Some(a.now),
                                      error := Some("cancelled before start"))))
      else if t.row.status == Running then
        Put(s, a.id, t.(row := t.row.(cancelRequested := true)))
      else s
  }

  predicate Quiet(t: Task, now: real) {
    t.row.status == Running && t.heartbeat.Some? && t.heartbeat.value < now - LOST_AFTER
  }

  function QuietIds(s: State, now: real): set<Id> {
    set i | i in s.tasks && Quiet(s.tasks[i], now)
  }

  /** The reaper declares every running task lost whose worker went quiet. */
  function ReapQuiet(s: State, now: real): State {
    s.(tasks := map i | i in s.tasks ::
         if Quiet(s.tasks[i], now) then Ended(s.tasks[i], Lost, Some("worker gone"), now) else s.tasks[i],
       dirty := s.dirty + QuietIds(s, now))
  }

  function BeginFlush(s: State): State {
    if s.dirty == {} then s
    else s.(dirty := {},
            flight := Some(Flight(s.dirty, map i | i in s.dirty && i in s.tasks :: s.tasks[i].row, false)))
  }

  function WriteFlush(s: State): State
    requires s.flight.Some?
  {
    s.(db := s.db + s.flight.value.rows, flight := Some(s.flight.value.(written := true)))
  }

  /** Evicted on success: what was flushed, is finished and was not touched since. */
  predicate Evictable(s: State, id: Id)
    requires s.flight.Some?
  {
    id in s.flight.value.ids && id !in s.dirty && id in s.tasks && Finished(s.tasks[id].row.status)
  }

  function EndFlush(s: State): State
    requires s.flight.Some?
  {
    s.(tasks := map i | i in s.tasks && !Evictable(s, i) :: s.tasks[i], flight := None)
  }

  function FailFlush(s: State): State
    requires s.flight.Some?
  {
    s.(dirty := s.dirty + s.flight.value.ids, flight := None)
  }

  predicate Unfinished(db: map<Id, Row>, id: Id) {
    id in db && !Finished(db[id].status)
  }

  /** A possible answer of the database to the query for unfinished tasks. */
  ghost predicate AnswersUnfinished(db: map<Id, Row>, found: seq<Id>) {
    && (forall i :: 0 <= i < |found| ==> Unfinished(db, found[i]))
    && (forall i, j :: 0 <= i < j < |found| ==> found[i] != found[j])
    && (forall id :: Unfinished(db, id) ==> id in found)
  }

  /** The recovered ids to queue: pending in the database, unknown to memory. */
  function Requeued(s: State, found: seq<Id>): seq<Id> {
    if found == [] then []
    else if found[0] !in s.tasks && found[0] in s.db && s.db[found[0]].status == Pending
    then [found[0]] + Requeued(s, found[1..])
    else Requeued(s, found[1..])
  }

  lemma {:induction false} RequeuedHas(s: State, found: seq<Id>, id: Id)
    ensures id in Requeued(s, found) <==>
            id in found && id !in s.tasks && id in s.db && s.db[id].status == Pending
  {
    if found != [] {
      RequeuedHas(s, found[1..], id);
      assert id in found <==> id == found[0] || id in found[1..];
    }
  }

  lemma {:induction false} RequeuedDistinct(s: State, found: seq<Id>)
    requires Distinct(found)
    ensures Distinct(Requeued(s, found))
  {
    if found != [] {
      RequeuedDistinct(s, found[1..]);
      RequeuedHas(s, found[1..], found[0]);
    }
  }

  function Revived(row: Row, now: real): Task {
    Task(row, None, if row.status == Running then Some(now) else None)
  }

  /** Memory with the rows found in the database added where it lacked them. */
  function Loaded(s: State, found: seq<Id>, now: real): map<Id, Task> {
    map i | i in s.tasks.Keys + s.db.Keys && (i in s.tasks || i in found) ::
      if i in s.tasks then s.tasks[i] else Revived(s.db[i], now)
  }

  function RecoverTasks(s: State, found: seq<Id>, now: real): State {
    var queue := s.queue + Requeued(s, found);
    s.(tasks := Loaded(s, found, now),
       queue := queue,
       recovered := true,
       arrived := s.arrived || queue != [],
       waiting := if queue != [] then Signalled(s.waiting) else s.waiting)
  }

  /** When an action can happen: fresh ids are fresh, one flush at a time,
      a blocked call moves only once signalled, and a cancel that would have to
      read the database waits for recovery. */
  ghost predicate Enabled(s: State, a: Act) {
    match a
    case Create(id, _, _, _, _, _) => id !in View(s)
    case Retry(_, copy, _, _) => copy !in View(s)
    case LeasePass(call, _, token, _, _) => token != "" && (call in s.waiting ==> s.waiting[call])
    case LeaseTimeout(call) => call in s.waiting
    case Heartbeat(_, _, _) => true
    case CompleteBegin(_, _) => true
    case CompleteEnd(id, _, _, _) => id in s.completing
    case Cancel(id, _, _) => s.recovered || id in s.tasks
    case Reap(_) => true
    case FlushBegin => s.flight.None?
    case FlushWrite => s.flight.Some? && !s.flight.value.written
    case FlushOk => s.flight.Some? && s.flight.value.written
    case FlushFail => s.flight.Some?
    case Recover(found, _) => !s.recovered && AnswersUnfinished(s.db, found)
  }

  ghost function Step(s: State, a: Act): State
    requires Enabled(s, a)
  {
    match a
    case Create(_, _, _, _, _, _) => CreateTask(s, a)
    case Retry(_, _, _, _) => RetryTask(s, a)
    case LeasePass(_, _, _, _, _) => Pass(s, a)
    case LeaseTimeout(call) => s.(waiting := s.waiting - {call})
    case Heartbeat(_, _, _) => Beat(s, a)
    case CompleteBegin(_, _) => BeginComplete(s, a)
    case CompleteEnd(_, _, _, _) => EndComplete(s, a)
    case Cancel(_, _, _) => CancelTask(s, a)
    case Reap(now) => ReapQuiet(s, now)
    case FlushBegin => BeginFlush(s)
    case FlushWrite => WriteFlush(s)
    case FlushOk => EndFlush(s)
    case FlushFail => FailFlush(s)
    case Recover(found, now) => RecoverTasks(s, found, now)
  }

  // The invariant, in the parts that the theorems use.

  /** The part of a row that never changes once the task exists. */
  predicate SameTask(a: Row, b: Row) {
    a.kind == b.kind && a.payload == b.payload && a.parent == b.parent && a.created == b.created
  }

  ghost predicate Distinct(ids: seq<Id>) {
    forall i, j :: 0 <= i < j < |ids| ==> ids[i] != ids[j]
  }

  predicate StoredFinished(s: State, id: Id) {
    id !in s.tasks && id in s.db && Finished(s.db[id].status)
  }

  predicate InFlight(s: State, id: Id) {
    s.flight.Some? && id in s.flight.value.ids
  }

  /** A pending task is queued; a queued id is a task or a finished row. */
  predicate QueueAt(s: State, id: Id) {
    && (PendingIn(s.tasks, id) ==> id in s.queue)
    && (id in s.queue ==> id in s.tasks || StoredFinished(s, id))
  }

  /** Memory and database differ on an id only while it is dirty or in flight. */
  predicate WriteAt(s: State, id: Id) {
    && (id in s.dirty || InFlight(s, id) ==> id in s.tasks)
    && (s.flight.Some? ==> (id in s.flight.value.rows <==> id in s.flight.value.ids))
    && (InFlight(s, id) ==> SameTask(s.flight.value.rows[id], s.tasks[id].row))
    && (InFlight(s, id) && id !in s.dirty ==> s.flight.value.rows[id] == s.tasks[id].row)
    && (InFlight(s, id) && s.flight.value.written ==> id in s.db && s.db[id] == s.flight.value.rows[id])
    && (id in s.tasks && id !in s.dirty && !InFlight(s, id) ==> id in s.db && s.db[id] == s.tasks[id].row)
    && (id in s.tasks && id in s.db ==> SameTask(s.db[id], s.tasks[id].row))
  }

  /** Only a running task holds a lease, and a suspended completion refers to
      a task that has left the pending state for good. */
  predicate LeaseAt(s: State, id: Id) {
    && (id in s.tasks && s.tasks[id].lease.Some? ==> s.tasks[id].row.status == Running)
    && (id in s.completing ==>
          (id in s.tasks && s.tasks[id].row.status != Pending) || StoredFinished(s, id))
  }

  /** After recovery, what is only in the database is finished. */
  predicate RecoverAt(s: State, id: Id) {
    s.recovered && id in s.db && id !in s.tasks ==> Finished(s.db[id].status)
  }

  predicate InvAt(s: State, id: Id) {
    QueueAt(s, id) && WriteAt(s, id) && LeaseAt(s, id) && RecoverAt(s, id)
  }

  /** A call that is blocked and not signalled faces an empty queue. */
  ghost predicate NobodyOverlooked(s: State) {
    forall c :: c in s.waiting && !s.waiting[c] ==> s.queue == []
  }

  ghost predicate Inv(s: State) {
    && (forall id :: InvAt(s, id))
    && Distinct(s.queue)
    && NobodyOverlooked(s)
  }

  lemma BootInv(db: map<Id, Row>)
    ensures Inv(Boot(db))
    ensures View(Boot(db)) == db
  {
  }

  lemma EnqueueAt(s: State, id: Id, row: Row, i: Id)
    requires InvAt(s, id) && InvAt(s, i) && id !in View(s) && row.status == Pending
    ensures InvAt(Enqueue(s, id, row), i)
    ensures id !in s.queue
  {
  }

  lemma EnqueueInv(s: State, id: Id, row: Row)
    requires Inv(s) && id !in View(s) && row.status == Pending
    ensures Inv(Enqueue(s, id, row))
  {
    forall i ensures InvAt(Enqueue(s, id, row), i) { EnqueueAt(s, id, row, i); }
    assert InvAt(s, id);
  }

  lemma GrabQueueAt(s: State, worker: string, token: string, now: real, i: Id)
    requires InvAt(s, i) && Distinct(s.queue)
    ensures QueueAt(Grab(s, worker, token, now).0, i)
  {
    var k := NextPending(s.tasks, s.queue);
    if PendingIn(s.tasks, i) {
      var j :| 0 <= j < |s.queue| && s.queue[j] == i;
      if j > k { assert s.queue[k + 1..][j - k - 1] == i; }
    }
  }

  lemma GrabRowAt(s: State, worker: string, token: string, now: real, i: Id)
    requires InvAt(s, i)
    ensures var s' := Grab(s, worker, token, now).0;
            WriteAt(s', i) && LeaseAt(s', i) && RecoverAt(s', i)
  {
    var k := NextPending(s.tasks, s.queue);
    if k == |s.queue| {
      assert Grab(s, worker, token, now).0 == s.(queue := []);
    }
  }

  lemma GrabAt(s: State, worker: string, token: string, now: real, i: Id)
    requires InvAt(s, i) && Distinct(s.queue)
    ensures InvAt(Grab(s, worker, token, now).0, i)
  {
    GrabQueueAt(s, worker, token, now, i);
    GrabRowAt(s, worker, token, now, i);
  }

  /** The event and its waiters do not matter to the per-task invariant. */
  lemma WaitingIrrelevant(s: State, arrived: bool, waiting: map<Call, bool>, i: Id)
    ensures InvAt(s.(arrived := arrived, waiting := waiting), i) == InvAt(s, i)
  {
  }

  lemma PassOverlooksNobody(s: State, a: Act)
    requires NobodyOverlooked(s) && a.LeasePass? && Enabled(s, a)
    ensures NobodyOverlooked(Pass(s, a))
  {
    var s' := Pass(s, a);
    forall c | c in s'.waiting && !s'.waiting[c] ensures s'.queue == [] {
      if c != a.call { assert c in s.waiting && !s.waiting[c]; }
    }
  }

  lemma PassAt(s: State, a: Act, i: Id)
    requires InvAt(s, i) && Distinct(s.queue) && a.LeasePass?
    ensures InvAt(Pass(s, a), i)
  {
    var s0 := if a.call in s.waiting then s.(arrived := false) else s;
    WaitingIrrelevant(s, s0.arrived, s.waiting, i);
    GrabAt(s0, a.worker, a.token, a.now, i);
    var s1 := Grab(s0, a.worker, a.token, a.now).0;
    WaitingIrrelevant(s1, Pass(s, a).arrived, Pass(s, a).waiting, i);
  }

  lemma PassKeepsDistinct(s: State, a: Act)
    requires Distinct(s.queue) && a.LeasePass?
    ensures Distinct(Pass(s, a).queue)
  {
    var k := NextPending(s.tasks, s.queue);
    assert Pass(s, a).queue == if k == |s.queue| then [] else s.queue[k + 1..];
  }

  lemma PassInv(s: State, a: Act)
    requires Inv(s) && a.LeasePass? && Enabled(s, a)
    ensures Inv(Pass(s, a))
  {
    forall i ensures InvAt(Pass(s, a), i) {
      assert InvAt(s, i);
      PassAt(s, a, i);
    }
    PassKeepsDistinct(s, a);
    PassOverlooksNobody(s, a);
  }

  lemma RecoverAtKept(s: State, found: seq<Id>, now: real, i: Id)
    requires InvAt(s, i) && !s.recovered && AnswersUnfinished(s.db, found)
    ensures InvAt(RecoverTasks(s, found, now), i)
  {
    assert Unfinished(s.db, i) <==> i in found;
    RequeuedHas(s, found, i);
  }

  lemma RecoverInv(s: State, found: seq<Id>, now: real)
    requires Inv(s) && !s.recovered && AnswersUnfinished(s.db, found)
    ensures Inv(RecoverTasks(s, found, now))
  {
    forall i ensures InvAt(RecoverTasks(s, found, now), i) { RecoverAtKept(s, found, now, i); }
    RequeuedDistinct(s, found);
    forall id | id in Requeued(s, found) ensures id !in s.queue {
      RequeuedHas(s, found, id);
      assert InvAt(s, id);
    }
    JoinDistinct(s.queue, Requeued(s, found));
  }

  lemma JoinDistinct(a: seq<Id>, b: seq<Id>)
    requires Distinct(a) && Distinct(b) && forall id :: id in b ==> id !in a
    ensures Distinct(a + b)
  {
    forall i, j | 0 <= i < j < |a + b| ensures (a + b)[i] != (a + b)[j] {
      if i < |a| <= j { assert b[j - |a|] in b && a[i] in a; }
    }
  }

  /** The steps that neither add to the queue nor take from it. */
  predicate LeavesQueue(a: Act) {
    !a.Create? && !a.Retry? && !a.LeasePass? && !a.Recover?
  }

  lemma PutAt(s: State, id: Id, t: Task, i: Id)
    requires InvAt(s, i)
    requires i == id ==> t.row.status != Pending && (t.lease.Some? ==> t.row.status == Running)
    requires i == id && i in s.tasks ==> SameTask(s.tasks[i].row, t.row)
    requires i == id && i !in s.tasks && i in s.db ==> SameTask(s.db[i], t.row)
    ensures InvAt(Put(s, id, t), i)
  {
  }

  lemma LeaseCheckAt(s: State, id: Id, token: string, i: Id)
    requires InvAt(s, i) && Owned(s, id, token).Some?
    ensures InvAt(Owned(s, id, token).value, i)
    ensures id in s.tasks && (i == id ==> s.tasks[id].row.status == Running)
  {
  }

  lemma WorkerStepAt(s: State, a: Act, i: Id)
    requires InvAt(s, i) && Enabled(s, a) && (a.Heartbeat? || a.CompleteBegin?)
    ensures InvAt(Step(s, a), i)
  {
    if Owned(s, a.id, a.token).Some? { LeaseCheckAt(s, a.id, a.token, i); }
  }

  lemma EndCompleteAt(s: State, a: Act, i: Id)
    requires InvAt(s, i) && Enabled(s, a) && a.CompleteEnd?
    ensures InvAt(EndComplete(s, a), i)
  {
    var s0 := s.(completing := s.completing - multiset{a.id});
    assert InvAt(s0, i);
    if a.id in s.tasks && Reportable(a.status) {
      PutAt(s0, a.id, Ended(s.tasks[a.id], a.status, a.error, a.now), i);
    }
  }

  lemma CancelAt(s: State, a: Act, i: Id)
    requires InvAt(s, i) && a.Cancel?
    ensures InvAt(CancelTask(s, a), i)
  {
    match Find(s, a.id, a.dbUp)
    case None =>
    case Some(t) =>
      if t.row.status == Running {
        PutAt(s, a.id, t.(row := t.row.(cancelRequested := true)), i);
      }
  }

  lemma ReapAt(s: State, now: real, i: Id)
    requires InvAt(s, i)
    ensures InvAt(ReapQuiet(s, now), i)
  {
  }

  lemma FlushAt(s: State, a: Act, i: Id)
    requires InvAt(s, i) && Enabled(s, a) && (a.FlushBegin? || a.FlushWrite? || a.FlushOk? || a.FlushFail?)
    ensures InvAt(Step(s, a), i)
  {
    match a
    case FlushBegin =>
    case FlushWrite =>
    case FlushOk =>
    case FlushFail =>
  }

  lemma OtherStepAt(s: State, a: Act, i: Id)
    requires InvAt(s, i) && Enabled(s, a) && LeavesQueue(a)
    ensures InvAt(Step(s, a), i)
  {
    match a
    case Heartbeat(_, _, _) => WorkerStepAt(s, a, i);
    case CompleteBegin(_, _) => WorkerStepAt(s, a, i);
    case CompleteEnd(_, _, _, _) => EndCompleteAt(s, a, i);
    case Cancel(_, _, _) => CancelAt(s, a, i);
    case Reap(now) => ReapAt(s, now, i);
    case LeaseTimeout(c) => WaitingIrrelevant(s, s.arrived, s.waiting - {c}, i);
    case _ => FlushAt(s, a, i);
  }

  lemma WorkerFrame(s: State, a: Act)
    requires a.Heartbeat? || a.CompleteBegin?
    ensures a.Heartbeat? ==> Beat(s, a).queue == s.queue && Beat(s, a).waiting == s.waiting
    ensures a.CompleteBegin? ==> BeginComplete(s, a).queue == s.queue && BeginComplete(s, a).waiting == s.waiting
  {
  }

  lemma FinishFrame(s: State, a: Act)
    requires a.CompleteEnd? || a.Cancel?
    ensures a.CompleteEnd? ==> EndComplete(s, a).queue == s.queue && EndComplete(s, a).waiting == s.waiting
    ensures a.Cancel? ==> CancelTask(s, a).queue == s.queue && CancelTask(s, a).waiting == s.waiting
  {
  }

  lemma QueueStays(s: State, a: Act)
    requires Enabled(s, a) && LeavesQueue(a)
    ensures Step(s, a).queue == s.queue
    ensures Step(s, a).waiting == if a.LeaseTimeout? then s.waiting - {a.call} else s.waiting
  {
    match a
    case Heartbeat(_, _, _) => WorkerFrame(s, a);
    case CompleteBegin(_, _) => WorkerFrame(s, a);
    case CompleteEnd(_, _, _, _) => FinishFrame(s, a);
    case Cancel(_, _, _) => FinishFrame(s, a);
    case _ =>
  }

  lemma OtherStepInv(s: State, a: Act)
    requires Inv(s) && Enabled(s, a) && LeavesQueue(a)
    ensures Inv(Step(s, a))
  {
    QueueStays(s, a);
    forall i ensures InvAt(Step(s, a), i) { OtherStepAt(s, a, i); }
  }

  lemma StepKeepsInv(s: State, a: Act)
    requires Inv(s) && Enabled(s, a)
    ensures Inv(Step(s, a))
  {
    match a
    case Create(id, kind, payload, parent, now, _) =>
      EnqueueInv(s, id, NewRow(kind, payload, parent, now));
    case Retry(id, copy, now, dbUp) =>
      match Find(s, id, dbUp) {
        case None =>
        case Some(t) => EnqueueInv(s, copy, NewRow(t.row.kind, t.row.payload, Some(id), now));
      }
    case LeasePass(_, _, _, _, _) => PassInv(s, a);
    case Recover(found, now) => RecoverInv(s, found, now);
    case _ => OtherStepInv(s, a);
  }
}
