/**
 The simple task map that the write-behind pool refines: one map of rows and
 the order in which tasks arrived. It has no queue, no dirty set, no flush,
 no lease and no eviction.
 */
module TaskLedger {
  import opened Options
  import opened TaskPool

  datatype Ledger = Ledger(rows: map<Id, Row>, order: seq<Id>)

  datatype Op =
    | Nothing
    | Arrive(id: Id, row: Row)
    | HandOut(worker: string, now: real)
    | Report(id: Id, status: Status, error: Option<string>, now: real)
    | Abandon(id: Id, now: real)
    | Lose(quiet: set<Id>, now: real)
    | Resume(found: seq<Id>)

  predicate Waits(rows: map<Id, Row>, id: Id) {
    id in rows && rows[id].status == Pending
  }

  /** The position of the oldest arrival that still waits. */
  function Oldest(rows: map<Id, Row>, order: seq<Id>): (k: nat)
    ensures k <= |order|
    ensures k < |order| ==> Waits(rows, order[k])
    ensures forall j :: 0 <= j < k ==> !Waits(rows, order[j])
  {
    if order == [] then 0
    else if Waits(rows, order[0]) then 0
    else 1 + Oldest(rows, order[1..])
  }

  function End(row: Row, status: Status, error: Option<string>, now: real): Row {
    row.(status := status, error := error, finished := Some(now))
  }

  function Apply(m: Ledger, op: Op): Ledger {
    match op
    case Nothing => m
    case Arrive(id, row) => Ledger(m.rows[id := row], m.order + [id])
    case HandOut(worker, now) =>
      var k := Oldest(m.rows, m.order);
      if k == |m.order| then m
      else
        var id := m.order[k];
        m.(rows := m.rows[id := m.rows[id].(status := Running, worker := Some(worker), started := Some(now))])
    case Report(id, status, error, now) =>
      if id in m.rows && m.rows[id].status == Running
      then m.(rows := m.rows[id := End(m.rows[id], status, error, now)]) else m
    case Abandon(id, now) =>
      if id !in m.rows || Finished(m.rows[id].status) then m
      else if m.rows[id].status == Pending
      then m.(rows := m.rows[id := End(m.rows[id], Cancelled, Some("cancelled before start"), now)])
      else m.(rows := m.rows[id := m.rows[id].(cancelRequested := true)])
    case Lose(ids, now) =>
      m.(rows := map i | i in m.rows ::
           if i in ids && m.rows[i].status == Running then End(m.rows[i], Lost, Some("worker gone"), now)
           else m.rows[i])
    case Resume(ids) => m.(order := m.order + ids)
  }

  /** What an action means to the ledger. Flush steps, leases' tokens, heartbeats
      and refused requests mean nothing. */
  function Meaning(s: State, a: Act): Op {
    match a
    case Create(id, kind, payload, parent, now, otherWrites) =>
      if Overloaded(s, otherWrites) then Nothing else Arrive(id, NewRow(kind, payload, parent, now))
    case Retry(id, copy, now, dbUp) =>
      (match Find(s, id, dbUp)
       case None => Nothing
       case Some(t) => Arrive(copy, NewRow(t.row.kind, t.row.payload, Some(id), now)))
    case LeasePass(_, worker, _, now, _) => HandOut(worker, now)
    case CompleteEnd(id, status, error, now) =>
      if Reportable(status) then Report(id, status, error, now) else Nothing
    case Cancel(id, now, dbUp) => Abandon(id, now)
    case Reap(now) => Lose(QuietIds(s, now), now)
    case Recover(found, _) => Resume(Requeued(s, found))
    case _ => Nothing
  }

  /** The pool shows exactly the ledger's rows, and its queue is a tail of the
      ledger's arrivals before which nothing waits. */
  ghost predicate Shows(s: State, m: Ledger) {
    && View(s) == m.rows
    && |s.queue| <= |m.order|
    && s.queue == m.order[|m.order| - |s.queue|..]
    && (forall j :: 0 <= j < |m.order| - |s.queue| ==> !Waits(m.rows, m.order[j]))
  }

  /** No id arrives twice, and every arrival is known. */
  ghost predicate Orderly(m: Ledger) {
    Distinct(m.order) && forall id :: id in m.order ==> id in m.rows
  }

  lemma QueuedWaits(s: State, id: Id)
    requires InvAt(s, id) && id in s.queue
    ensures PendingIn(s.tasks, id) <==> Waits(View(s), id)
  {
  }

  /** Popping the queue hands out the oldest waiting arrival. */
  lemma NextIsOldest(s: State, m: Ledger)
    requires Inv(s) && Shows(s, m)
    ensures Oldest(m.rows, m.order) == |m.order| - |s.queue| + NextPending(s.tasks, s.queue)
  {
    var gap := |m.order| - |s.queue|;
    var k := NextPending(s.tasks, s.queue);
    forall j | 0 <= j < |s.queue|
      ensures s.queue[j] == m.order[gap + j]
      ensures PendingIn(s.tasks, s.queue[j]) <==> Waits(m.rows, m.order[gap + j])
    {
      assert InvAt(s, s.queue[j]);
      QueuedWaits(s, s.queue[j]);
    }
    forall j | 0 <= j < gap + k ensures !Waits(m.rows, m.order[j]) {
      if j >= gap { assert s.queue[j - gap] == m.order[j]; }
    }
    assert k < |s.queue| ==> m.order[gap + k] == s.queue[k];
  }

  lemma PutView(s: State, id: Id, t: Task)
    ensures View(Put(s, id, t)) == View(s)[id := t.row]
  {
  }

  lemma GrabView(s: State, worker: string, token: string, now: real)
    ensures var k := NextPending(s.tasks, s.queue);
            var (s', got) := Grab(s, worker, token, now);
            if k == |s.queue| then View(s') == View(s) && s'.queue == []
            else
              && s.queue[k] in View(s)
              && View(s') == View(s)[s.queue[k] := View(s)[s.queue[k]].(
                                       status := Running, worker := Some(worker), started := Some(now))]
              && s'.queue == s.queue[k + 1..]
  {
    var k := NextPending(s.tasks, s.queue);
    if k < |s.queue| {
      PutView(s, s.queue[k], Leased(s.tasks[s.queue[k]], worker, token, now));
    }
  }

  lemma HandOutShown(s: State, m: Ledger, a: Act)
    requires Inv(s) && Shows(s, m) && a.LeasePass?
    ensures Shows(Pass(s, a), Apply(m, HandOut(a.worker, a.now)))
  {
    NextIsOldest(s, m);
    GrabView(s, a.worker, a.token, a.now);
    var s1 := Grab(s, a.worker, a.token, a.now).0;
    HandOutRows(s, m, a.worker, a.now, s1);
    PassGrabs(s, a);
  }

  lemma GrabIgnoresEvent(s: State, arrived: bool, worker: string, token: string, now: real)
    ensures Grab(s.(arrived := arrived), worker, token, now).0 == Grab(s, worker, token, now).0.(arrived := arrived)
    ensures Grab(s.(arrived := arrived), worker, token, now).1 == Grab(s, worker, token, now).1
  {
  }

  lemma PassGrabs(s: State, a: Act)
    requires a.LeasePass?
    ensures var s1 := Grab(s, a.worker, a.token, a.now).0;
            Pass(s, a).tasks == s1.tasks && Pass(s, a).db == s1.db && Pass(s, a).queue == s1.queue
  {
    GrabIgnoresEvent(s, false, a.worker, a.token, a.now);
  }

  lemma HandOutRows(s: State, m: Ledger, worker: string, now: real, s1: State)
    requires Shows(s, m)
    requires Oldest(m.rows, m.order) == |m.order| - |s.queue| + NextPending(s.tasks, s.queue)
    requires var k := NextPending(s.tasks, s.queue);
            if k == |s.queue| then View(s1) == View(s) && s1.queue == []
            else
              && s.queue[k] in View(s)
              && View(s1) == View(s)[s.queue[k] := View(s)[s.queue[k]].(
                                       status := Running, worker := Some(worker), started := Some(now))]
              && s1.queue == s.queue[k + 1..]
    ensures Shows(s1, Apply(m, HandOut(worker, now)))
  {
    var k := NextPending(s.tasks, s.queue);
    var gap := |m.order| - |s.queue|;
    var m' := Apply(m, HandOut(worker, now));
    if k < |s.queue| { assert s.queue[k] == m.order[gap + k]; }
    forall j | 0 <= j < |m.order| - |s1.queue| ensures !Waits(m'.rows, m.order[j]) {
      if k < |s.queue| && j == gap + k {} else { assert !Waits(m.rows, m.order[j]); }
    }
  }

  lemma ArrivalShown(s: State, m: Ledger, id: Id, row: Row)
    requires Inv(s) && Shows(s, m) && Orderly(m) && id !in View(s)
    ensures Shows(Enqueue(s, id, row), Apply(m, Arrive(id, row)))
    ensures Orderly(Apply(m, Arrive(id, row)))
  {
    var s' := Enqueue(s, id, row);
    var m' := Apply(m, Arrive(id, row));
    assert View(s') == m'.rows;
    forall j | 0 <= j < |m'.order| - |s'.queue| ensures !Waits(m'.rows, m'.order[j]) {
      assert m'.order[j] == m.order[j] && m.order[j] in m.order;
    }
  }

  lemma ResumeIsFresh(s: State, m: Ledger, found: seq<Id>, id: Id)
    requires Inv(s) && Shows(s, m) && id in Requeued(s, found)
    ensures id in m.rows && id !in m.order
  {
    RequeuedHas(s, found, id);
    var gap := |m.order| - |s.queue|;
    forall j | 0 <= j < |m.order| ensures m.order[j] != id {
      if j >= gap {
        assert m.order[j] == s.queue[j - gap];
        assert InvAt(s, s.queue[j - gap]);
      }
    }
  }

  lemma ResumeOrderly(s: State, m: Ledger, found: seq<Id>)
    requires Inv(s) && Shows(s, m) && Orderly(m) && AnswersUnfinished(s.db, found)
    ensures Orderly(Apply(m, Resume(Requeued(s, found))))
  {
    var ids := Requeued(s, found);
    forall id | id in ids ensures id in m.rows && id !in m.order { ResumeIsFresh(s, m, found, id); }
    RequeuedDistinct(s, found);
    JoinDistinct(m.order, ids);
  }

  lemma ResumeShown(s: State, m: Ledger, found: seq<Id>, now: real)
    requires Shows(s, m)
    ensures Shows(RecoverTasks(s, found, now), Apply(m, Resume(Requeued(s, found))))
  {
    var ids := Requeued(s, found);
    RecoverView(s, found, now);
    var gap := |m.order| - |s.queue|;
    assert (m.order + ids)[gap..] == m.order[gap..] + ids;
    assert RecoverTasks(s, found, now).queue == s.queue + ids;
    forall j | 0 <= j < gap ensures !Waits(m.rows, (m.order + ids)[j]) {
      assert (m.order + ids)[j] == m.order[j];
    }
  }

  lemma RecoverView(s: State, found: seq<Id>, now: real)
    ensures View(RecoverTasks(s, found, now)) == View(s)
  {
  }

  // The steps that may change rows but not the arrivals, one row at a time.

  predicate SameAt(s: State, m: Ledger, i: Id) {
    && (i in View(s) <==> i in m.rows)
    && (i in View(s) ==> View(s)[i] == m.rows[i])
  }

  lemma ReportMemory(s: State, m: Ledger, a: Act)
    requires a.CompleteEnd? && a.id in s.tasks && m.rows == View(s)
    requires s.tasks[a.id].row.status != Pending
    ensures View(EndComplete(s, a)) == Apply(m, Meaning(s, a)).rows
  {
    var s0 := s.(completing := s.completing - multiset{a.id});
    var ended := Ended(s.tasks[a.id], a.status, a.error, a.now);
    assert m.rows[a.id] == s.tasks[a.id].row;
    assert View(s0) == View(s);
    PutView(s0, a.id, ended);
    assert ended.row == End(m.rows[a.id], a.status, a.error, a.now);
  }

  lemma EndCompleteShown(s: State, m: Ledger, a: Act, i: Id)
    requires a.CompleteEnd? && InvAt(s, a.id) && Enabled(s, a) && m.rows == View(s)
    ensures SameAt(EndComplete(s, a), Apply(m, Meaning(s, a)), i)
  {
    if a.id in s.tasks { ReportMemory(s, m, a); }
  }

  lemma CancelMemory(s: State, m: Ledger, a: Act)
    requires a.Cancel? && a.id in s.tasks && m.rows == View(s)
    ensures View(CancelTask(s, a)) == Apply(m, Abandon(a.id, a.now)).rows
  {
    var t := s.tasks[a.id];
    assert m.rows[a.id] == t.row;
    if t.row.status == Pending {
      PutView(s, a.id, t.(row := End(t.row, Cancelled, Some("cancelled before start"), a.now)));
    } else if t.row.status == Running {
      PutView(s, a.id, t.(row := t.row.(cancelRequested := true)));
    }
  }

  lemma CancelShown(s: State, m: Ledger, a: Act, i: Id)
    requires a.Cancel? && InvAt(s, a.id) && (s.recovered || a.id in s.tasks) && m.rows == View(s)
    ensures SameAt(CancelTask(s, a), Apply(m, Abandon(a.id, a.now)), i)
  {
    if a.id !in s.tasks {
      assert CancelTask(s, a) == s;
      assert Apply(m, Abandon(a.id, a.now)) == m;
    } else {
      CancelMemory(s, m, a);
    }
  }

  lemma ReapShown(s: State, m: Ledger, now: real, i: Id)
    requires m.rows == View(s)
    ensures SameAt(ReapQuiet(s, now), Apply(m, Lose(QuietIds(s, now), now)), i)
  {
  }

  lemma LeaseCheckView(s: State, id: Id, token: string)
    requires Owned(s, id, token).Some?
    ensures View(Owned(s, id, token).value) == View(s)
    ensures id in Owned(s, id, token).value.tasks
  {
  }

  lemma BeatRows(tasks: map<Id, Task>, id: Id, now: real)
    requires id in tasks
    ensures Rows(tasks[id := tasks[id].(heartbeat := Some(now))]) == Rows(tasks)
  {
  }

  lemma BeatView(s: State, a: Act)
    requires a.Heartbeat?
    ensures View(Beat(s, a)) == View(s)
  {
    if Owned(s, a.id, a.token).Some? {
      LeaseCheckView(s, a.id, a.token);
      var o := Owned(s, a.id, a.token).value;
      BeatRows(o.tasks, a.id, a.now);
    }
  }

  lemma FlushShown(s: State, a: Act, i: Id)
    requires (a.FlushBegin? || a.FlushWrite? || a.FlushOk? || a.FlushFail?) && InvAt(s, i) && Enabled(s, a)
    ensures SameAt(Step(s, a), Ledger(View(s), []), i)
  {
  }

  lemma RowShown(s: State, m: Ledger, a: Act, i: Id)
    requires Inv(s) && Enabled(s, a) && LeavesQueue(a) && m.rows == View(s)
    ensures SameAt(Step(s, a), Apply(m, Meaning(s, a)), i)
  {
    assert InvAt(s, i);
    match a
    case CompleteEnd(id, _, _, _) => assert InvAt(s, id); EndCompleteShown(s, m, a, i);
    case Cancel(id, _, _) => assert InvAt(s, id); CancelShown(s, m, a, i);
    case Reap(now) => ReapShown(s, m, now, i);
    case Heartbeat(_, _, _) => BeatView(s, a);
    case CompleteBegin(id, token) =>
      if Owned(s, id, token).Some? { LeaseCheckView(s, id, token); }
    case LeaseTimeout(_) =>
    case _ => FlushShown(s, a, i);
  }

  lemma RowsShown(s: State, m: Ledger, a: Act)
    requires Inv(s) && Enabled(s, a) && LeavesQueue(a) && m.rows == View(s)
    ensures View(Step(s, a)) == Apply(m, Meaning(s, a)).rows
  {
    var v, w := View(Step(s, a)), Apply(m, Meaning(s, a)).rows;
    forall i ensures (i in v <==> i in w) && (i in v ==> v[i] == w[i]) { RowShown(s, m, a, i); }
  }

  /** No operation but an arrival makes a row wait or unknown. */
  lemma ApplyKeepsRows(m: Ledger, op: Op, i: Id)
    requires !op.Arrive? && (op.Report? ==> Reportable(op.status)) && i in m.rows
    ensures i in Apply(m, op).rows
    ensures Waits(Apply(m, op).rows, i) ==> Waits(m.rows, i)
  {
  }

  lemma QueueUntouchedShown(s: State, m: Ledger, a: Act)
    requires Inv(s) && Shows(s, m) && Orderly(m) && Enabled(s, a) && LeavesQueue(a)
    ensures Shows(Step(s, a), Apply(m, Meaning(s, a)))
    ensures Orderly(Apply(m, Meaning(s, a)))
  {
    var op := Meaning(s, a);
    RowsShown(s, m, a);
    QueueUntouched(s, m, a);
    forall id | id in m.order
      ensures id in Apply(m, op).rows && (Waits(Apply(m, op).rows, id) ==> Waits(m.rows, id))
    {
      ApplyKeepsRows(m, op, id);
    }
  }

  lemma QueueUntouched(s: State, m: Ledger, a: Act)
    requires Enabled(s, a) && LeavesQueue(a)
    ensures Step(s, a).queue == s.queue
    ensures Apply(m, Meaning(s, a)).order == m.order
    ensures var op := Meaning(s, a); !op.Arrive? && (op.Report? ==> Reportable(op.status))
  {
    QueueStays(s, a);
  }

  /** Every server step does to what clients see exactly what the simple map
      does, and a flush does nothing to it. */
  lemma StepRefines(s: State, m: Ledger, a: Act)
    requires Inv(s) && Shows(s, m) && Orderly(m) && Enabled(s, a)
    ensures Shows(Step(s, a), Apply(m, Meaning(s, a)))
    ensures Orderly(Apply(m, Meaning(s, a)))
  {
    match a
    case Create(id, kind, payload, parent, now, _) =>
      ArrivalShown(s, m, id, NewRow(kind, payload, parent, now));
    case Retry(id, copy, now, dbUp) =>
      match Find(s, id, dbUp) {
        case None =>
        case Some(t) => ArrivalShown(s, m, copy, NewRow(t.row.kind, t.row.payload, Some(id), now));
      }
    case LeasePass(_, worker, _, now, _) =>
      HandOutShown(s, m, a);
      forall id | id in m.order ensures id in Apply(m, HandOut(worker, now)).rows {
        ApplyKeepsRows(m, HandOut(worker, now), id);
      }
    case Recover(found, now) => ResumeShown(s, m, found, now); ResumeOrderly(s, m, found);
    case _ => QueueUntouchedShown(s, m, a);
  }

  /** Flush steps and lease bookkeeping leave every lookup's answer alone. */
  lemma FlushIsInvisible(s: State, a: Act)
    requires Inv(s) && Enabled(s, a)
    requires a.FlushBegin? || a.FlushWrite? || a.FlushOk? || a.FlushFail? || a.Heartbeat? || a.CompleteBegin?
    ensures View(Step(s, a)) == View(s)
  {
    RowsShown(s, Ledger(View(s), []), a);
  }

  // What the ledger never does to a row.

  /** How a row may change: never who it is, never after it has finished, and
      only forwards through pending, running, finished. */
  ghost predicate Onward(a: Row, b: Row) {
    && SameTask(a, b)
    && (Finished(a.status) ==> a == b)
    && (a.status == Running ==> b.status != Pending && a.worker == b.worker && a.started == b.started)
    && (a.cancelRequested ==> b.cancelRequested)
  }

  /** One operation moves a status along a single permitted edge. */
  ghost predicate Edge(a: Status, b: Status) {
    a == b || (a == Pending && (b == Running || b == Cancelled))
    || (a == Running && (Reportable(b) || b == Lost))
  }

  lemma OnwardTransitive(a: Row, b: Row, c: Row)
    requires Onward(a, b) && Onward(b, c)
    ensures Onward(a, c)
  {
  }

  /** The ledger's rules for one row, for every operation the pool performs. */
  lemma StepIsOnward(s: State, m: Ledger, a: Act, i: Id)
    requires Inv(s) && Enabled(s, a) && Shows(s, m) && Orderly(m) && i in m.rows
    ensures i in Apply(m, Meaning(s, a)).rows
    ensures Onward(m.rows[i], Apply(m, Meaning(s, a)).rows[i])
    ensures Edge(m.rows[i].status, Apply(m, Meaning(s, a)).rows[i].status)
  {
    var op := Meaning(s, a);
    if op.Arrive? { assert op.id != i; }
    ApplyIsOnward(m, op, i);
  }

  lemma ApplyIsOnward(m: Ledger, op: Op, i: Id)
    requires i in m.rows && (op.Arrive? ==> op.id != i) && (op.Report? ==> Reportable(op.status))
    ensures i in Apply(m, op).rows
    ensures Onward(m.rows[i], Apply(m, op).rows[i])
    ensures Edge(m.rows[i].status, Apply(m, op).rows[i].status)
  {
  }
}
