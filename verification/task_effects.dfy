/**
 What each action of a server life leaves behind, told in the fields of the
 task it is about: the row a request makes, the lease a hand-out grants, the
 answer to a token, who the reaper takes and what a flush lets go of.
 */
module TaskEffects {
  import opened Options
  import opened TaskPool
  import opened TaskLedger
  import opened TaskHistory

  // Arrivals.

  predicate Fresh(r: Row, kind: string, payload: string, parent: Option<Id>, now: real) {
    && r.kind == kind && r.payload == payload && r.parent == parent && r.created == now
    && r.status == Pending && !r.cancelRequested
    && r.worker.None? && r.error.None? && r.started.None? && r.finished.None?
  }

  /** A look-up finds what memory or a reachable database holds, and nothing else. */
  lemma FindAnswers(s: State, id: Id, dbUp: bool)
    ensures Find(s, id, dbUp).Some? <==> id in s.tasks || (dbUp && id in s.db)
    ensures Find(s, id, dbUp).Some? ==> id in View(s) && Find(s, id, dbUp).value.row == View(s)[id]
  {
  }

  /** A submission is shown as a new waiting task with what was submitted, last
      in the queue, unless too many writes are waiting for the database. */
  lemma CreateMakes(tr: seq<State>, acts: seq<Act>, n: nat)
    requires Life(tr, acts) && n < |acts| && acts[n].Create?
    ensures var (s, s', a) := (tr[n], tr[n + 1], acts[n]);
            if |s.dirty| + a.otherWrites >= 50_000 then s' == s
            else
              && s'.queue == s.queue + [a.id]
              && a.id in View(s') && Fresh(View(s')[a.id], a.kind, a.payload, a.parent, a.now)
              && View(s') - {a.id} == View(s)
  {
    assert StepAt(tr, acts, n);
    var s, a := tr[n], acts[n];
    if |s.dirty| + a.otherWrites < 50_000 { EnqueueShows(s, a.id, tr[n + 1].tasks[a.id].row); }
  }

  lemma EnqueueShows(s: State, id: Id, row: Row)
    requires id !in View(s)
    ensures View(Enqueue(s, id, row)) == View(s)[id := row]
    ensures View(s)[id := row] - {id} == View(s)
  {
  }

  /** A retry is shown as a new waiting copy of what a look-up of the task found. */
  lemma RetryMakes(tr: seq<State>, acts: seq<Act>, n: nat)
    requires Life(tr, acts) && n < |acts| && acts[n].Retry?
    ensures var (s, s', a) := (tr[n], tr[n + 1], acts[n]);
            if a.id in s.tasks || (a.dbUp && a.id in s.db) then
              && s'.queue == s.queue + [a.copy]
              && a.copy in View(s')
              && Fresh(View(s')[a.copy], View(s)[a.id].kind, View(s)[a.id].payload, Some(a.id), a.now)
              && View(s') - {a.copy} == View(s)
            else s' == s
  {
    assert StepAt(tr, acts, n);
    var s, a := tr[n], acts[n];
    FindAnswers(s, a.id, a.dbUp);
    if Find(s, a.id, a.dbUp).Some? { EnqueueShows(s, a.copy, tr[n + 1].tasks[a.copy].row); }
  }

  // Leases.

  /** What a grab takes out of the waiting ones it leases. */
  lemma GrabLeases(s: State, worker: string, token: string, now: real, id: Id)
    requires var s' := Grab(s, worker, token, now).0; Waits(View(s), id) && !Waits(View(s'), id)
    ensures var s' := Grab(s, worker, token, now).0;
            Holds(s', id, token) && BeatSince(s', id, now) && s'.tasks[id].row.worker == Some(worker)
  {
    var k := NextPending(s.tasks, s.queue);
    GrabView(s, worker, token, now);
    assert k < |s.queue| && id == s.queue[k];
  }

  /** The task that a lease call takes from the waiting ones is running under the
      token of that very call from then on, and counts as heard from. */
  lemma HandOutLeases(tr: seq<State>, acts: seq<Act>, n: nat, id: Id)
    requires Life(tr, acts) && n < |acts| && acts[n].LeasePass?
    requires Waits(View(tr[n]), id) && !Waits(View(tr[n + 1]), id)
    ensures Holds(tr[n + 1], id, acts[n].token)
    ensures BeatSince(tr[n + 1], id, acts[n].now)
    ensures tr[n + 1].tasks[id].row.worker == Some(acts[n].worker)
  {
    var s, a := tr[n], acts[n];
    assert StepAt(tr, acts, n);
    PassGrabs(s, a);
    assert View(tr[n + 1]) == View(Grab(s, a.worker, a.token, a.now).0);
    GrabLeases(s, a.worker, a.token, a.now, id);
  }

  /** While a task waits in memory, a lease call does not leave without one. */
  lemma HandsOutWhileSomeWait(tr: seq<State>, acts: seq<Act>, n: nat, id: Id)
    requires Life(tr, acts) && n < |acts| && acts[n].LeasePass? && PendingIn(tr[n].tasks, id)
    ensures exists out :: Waits(View(tr[n]), out) && Holds(tr[n + 1], out, acts[n].token)
    ensures acts[n].call !in tr[n + 1].waiting
  {
    assert StepAt(tr, acts, n);
    LifeRefines(tr, acts, n);
    assert InvAt(tr[n], id);
    PassGrabs(tr[n], acts[n]);
    var out := tr[n].queue[NextPending(tr[n].tasks, tr[n].queue)];
    assert Waits(View(tr[n]), out) && Holds(tr[n + 1], out, acts[n].token);
  }

  /** A lease call that found nothing waits, if its time is not up, for the next
      arrival; one that has only now come is woken by an arrival nobody took. */
  lemma WaitsForAnArrival(tr: seq<State>, acts: seq<Act>, n: nat)
    requires Life(tr, acts) && n < |acts| && acts[n].LeasePass?
    ensures var (s, s', call) := (tr[n], tr[n + 1], acts[n].call);
            && (call in s'.waiting ==> !acts[n].expired && (s'.waiting[call] <==> s.arrived && call !in s.waiting))
            && s'.waiting - {call} == s.waiting - {call}
  {
    assert StepAt(tr, acts, n);
    PassWaits(tr[n], acts[n]);
  }

  lemma PassWaits(s: State, a: Act)
    requires a.LeasePass?
    ensures var w := Pass(s, a).waiting;
            && (a.call in w ==> !a.expired && (w[a.call] <==> s.arrived && a.call !in s.waiting))
            && w - {a.call} == s.waiting - {a.call}
  {
    var s0 := if a.call in s.waiting then s.(arrived := false) else s;
    GrabWaits(s0, a.worker, a.token, a.now);
  }

  lemma GrabWaits(s: State, worker: string, token: string, now: real)
    ensures Grab(s, worker, token, now).0.waiting == s.waiting && Grab(s, worker, token, now).0.arrived == s.arrived
  {
  }

  /** The holder of a lease is never turned away before its task has ended. */
  lemma HolderIsAccepted(tr: seq<State>, acts: seq<Act>, i: nat, j: nat, id: Id, token: string)
    requires Life(tr, acts) && i <= j <= |acts| && Holds(tr[i], id, token) && token != ""
    ensures Owned(tr[j], id, token).Some? <==> !Over(tr[j], id)
  {
    LeaseStays(tr, acts, i, j, id, token);
    LifeRefines(tr, acts, j);
    assert InvAt(tr[j], id);
    if Over(tr[j], id) { EndedRefuses(tr[j], id, token); }
  }

  lemma HeartbeatBeats(s: State, a: Act)
    requires a.Heartbeat? && Owned(s, a.id, a.token).Some? && LeaseAt(s, a.id)
    ensures Beats(Beat(s, a), a.id, a.now)
  {
  }

  /** An accepted heartbeat counts from the moment it names. */
  lemma HeartbeatCounts(tr: seq<State>, acts: seq<Act>, n: nat)
    requires Life(tr, acts) && n < |acts| && acts[n].Heartbeat?
    requires Owned(tr[n], acts[n].id, acts[n].token).Some?
    ensures Beats(tr[n + 1], acts[n].id, acts[n].now)
  {
    assert StepAt(tr, acts, n);
    LifeRefines(tr, acts, n);
    assert InvAt(tr[n], acts[n].id);
    HeartbeatBeats(tr[n], acts[n]);
    assert tr[n + 1] == Step(tr[n], acts[n]);
  }

  // Ends.

  /** A completion whose token is accepted can go on to its end, and leaves the
      holder of the token on the task; a refused one changes nothing. */
  lemma CompletionBegins(tr: seq<State>, acts: seq<Act>, n: nat, status: Status, error: Option<string>, now: real)
    requires Life(tr, acts) && n < |acts| && acts[n].CompleteBegin?
    ensures var (s', a) := (tr[n + 1], acts[n]);
            if Owned(tr[n], a.id, a.token).Some?
            then Enabled(s', CompleteEnd(a.id, status, error, now)) && Holds(s', a.id, a.token)
            else s' == tr[n]
  {
    assert StepAt(tr, acts, n);
    LifeRefines(tr, acts, n);
    assert InvAt(tr[n], acts[n].id);
    if Owned(tr[n], acts[n].id, acts[n].token).Some? { AcceptedHolds(tr[n], acts[n].id, acts[n].token); }
  }

  /** The rest of a completion writes what was reported over a running task, for
      the three ends a worker may report, and does nothing to any other task. */
  lemma CompletionEnds(tr: seq<State>, acts: seq<Act>, n: nat)
    requires Life(tr, acts) && n < |acts| && acts[n].CompleteEnd?
    ensures var (v, v', a) := (View(tr[n]), View(tr[n + 1]), acts[n]);
            if a.status in {Done, Failed, Status.Cancelled} && a.id in v && v[a.id].status == Running
            then v' == v[a.id := v[a.id].(status := a.status, error := a.error, finished := Some(a.now))]
            else v' == v
  {
    LifeRefines(tr, acts, n);
    LifeRefines(tr, acts, n + 1);
    assert StepAt(tr, acts, n);
    assert LedgerAt(tr, acts, n + 1) == Apply(LedgerAt(tr, acts, n), Meaning(tr[n], acts[n]));
  }

  /** A cancel ends a waiting task at once, asks a running one to end, and does
      nothing to any other. */
  lemma CancelActs(tr: seq<State>, acts: seq<Act>, n: nat)
    requires Life(tr, acts) && n < |acts| && acts[n].Cancel?
    ensures var (v, v', a) := (View(tr[n]), View(tr[n + 1]), acts[n]);
            if Waits(v, a.id) then
              v' == v[a.id := v[a.id].(status := Status.Cancelled, finished := Some(a.now),
                                       error := Some("cancelled before start"))]
            else if a.id in v && v[a.id].status == Running then v' == v[a.id := v[a.id].(cancelRequested := true)]
            else v' == v
  {
    LifeRefines(tr, acts, n);
    LifeRefines(tr, acts, n + 1);
    assert StepAt(tr, acts, n);
    assert LedgerAt(tr, acts, n + 1) == Apply(LedgerAt(tr, acts, n), Meaning(tr[n], acts[n]));
  }

  // The reaper.

  /** Whatever runs in memory has been heard from. */
  predicate HeardAt(s: State, id: Id) {
    id in s.tasks && s.tasks[id].row.status == Running ==> s.tasks[id].heartbeat.Some?
  }

  lemma HeardByWorker(s: State, a: Act, id: Id)
    requires HeardAt(s, id) && (a.Heartbeat? || a.CompleteBegin?)
    ensures a.Heartbeat? ==> HeardAt(Beat(s, a), id)
    ensures a.CompleteBegin? ==> HeardAt(BeginComplete(s, a), id)
  {
  }

  lemma HeardByLease(s: State, a: Act, id: Id)
    requires HeardAt(s, id) && a.LeasePass?
    ensures HeardAt(Pass(s, a), id)
  {
    PassGrabs(s, a);
  }

  lemma HeardByArrival(s: State, a: Act, id: Id)
    requires HeardAt(s, id) && (a.Create? || a.Retry?)
    ensures a.Create? ==> HeardAt(CreateTask(s, a), id)
    ensures a.Retry? ==> HeardAt(RetryTask(s, a), id)
  {
  }

  lemma HeardByEnd(s: State, a: Act, id: Id)
    requires HeardAt(s, id) && a.CompleteEnd?
    ensures HeardAt(EndComplete(s, a), id)
  {
  }

  lemma HeardByCancel(s: State, a: Act, id: Id)
    requires HeardAt(s, id) && RecoverAt(s, id) && Enabled(s, a) && a.Cancel?
    ensures HeardAt(CancelTask(s, a), id)
  {
  }

  lemma HeardStep(s: State, a: Act, id: Id)
    requires HeardAt(s, id) && RecoverAt(s, id) && Enabled(s, a)
    ensures HeardAt(Step(s, a), id)
  {
    match a
    case Create(_, _, _, _, _, _) => HeardByArrival(s, a, id);
    case Retry(_, _, _, _) => HeardByArrival(s, a, id);
    case LeasePass(_, _, _, _, _) => HeardByLease(s, a, id);
    case Heartbeat(_, _, _) => HeardByWorker(s, a, id);
    case CompleteBegin(_, _) => HeardByWorker(s, a, id);
    case CompleteEnd(_, _, _, _) => HeardByEnd(s, a, id);
    case Cancel(_, _, _) => HeardByCancel(s, a, id);
    case _ =>
  }

  lemma {:induction false} RunningIsHeard(tr: seq<State>, acts: seq<Act>, n: nat, id: Id)
    requires Life(tr, acts) && n <= |acts|
    ensures HeardAt(tr[n], id)
  {
    if n > 0 {
      RunningIsHeard(tr, acts, n - 1, id);
      LifeRefines(tr, acts, n - 1);
      assert StepAt(tr, acts, n - 1) && InvAt(tr[n - 1], id);
      HeardStep(tr[n - 1], acts[n - 1], id);
      assert tr[n] == Step(tr[n - 1], acts[n - 1]);
    }
  }

  /** The reaper takes exactly the tasks running in memory that were last heard
      from more than the limit ago, and changes no other task. */
  lemma ReapTakes(tr: seq<State>, acts: seq<Act>, n: nat, id: Id)
    requires Life(tr, acts) && n < |acts| && acts[n].Reap? && id in View(tr[n])
    ensures var (s, now) := (tr[n], acts[n].now);
            id in View(tr[n + 1])
            && if exists h: real :: Beats(s, id, h) && now - h > 300.0 then View(tr[n + 1])[id].status == Lost
               else View(tr[n + 1])[id] == View(s)[id]
  {
    assert StepAt(tr, acts, n);
    RunningIsHeard(tr, acts, n, id);
    if id in tr[n].tasks && Quiet(tr[n].tasks[id], acts[n].now) {
      assert Beats(tr[n], id, tr[n].tasks[id].heartbeat.value);
    }
  }

  // What a flush lets go of.

  /** What is finished stays in memory only until its last change is stored. */
  predicate TidyAt(s: State, id: Id) {
    id in s.tasks && Finished(s.tasks[id].row.status) ==> id in s.dirty || InFlight(s, id)
  }

  lemma TidyByWorker(s: State, a: Act, id: Id)
    requires TidyAt(s, id) && (a.Heartbeat? || a.CompleteBegin?)
    ensures a.Heartbeat? ==> TidyAt(Beat(s, a), id)
    ensures a.CompleteBegin? ==> TidyAt(BeginComplete(s, a), id)
  {
  }

  lemma TidyByGrab(s: State, worker: string, token: string, now: real, id: Id)
    requires TidyAt(s, id)
    ensures TidyAt(Grab(s, worker, token, now).0, id)
  {
  }

  lemma TidyByLease(s: State, a: Act, id: Id)
    requires TidyAt(s, id) && a.LeasePass?
    ensures TidyAt(Pass(s, a), id)
  {
    var s0 := if a.call in s.waiting then s.(arrived := false) else s;
    TidyByGrab(s0, a.worker, a.token, a.now, id);
    var s1 := Grab(s0, a.worker, a.token, a.now).0;
    assert Pass(s, a) == s1.(waiting := Pass(s, a).waiting);
  }

  lemma TidyByArrival(s: State, a: Act, id: Id)
    requires TidyAt(s, id) && (a.Create? || a.Retry?)
    ensures a.Create? ==> TidyAt(CreateTask(s, a), id)
    ensures a.Retry? ==> TidyAt(RetryTask(s, a), id)
  {
  }

  lemma TidyByEnd(s: State, a: Act, id: Id)
    requires TidyAt(s, id) && a.CompleteEnd?
    ensures TidyAt(EndComplete(s, a), id)
  {
  }

  lemma TidyByCancel(s: State, a: Act, id: Id)
    requires TidyAt(s, id) && a.Cancel?
    ensures TidyAt(CancelTask(s, a), id)
  {
  }

  lemma TidyByRecovery(s: State, found: seq<Id>, now: real, id: Id)
    requires TidyAt(s, id) && AnswersUnfinished(s.db, found)
    ensures TidyAt(RecoverTasks(s, found, now), id)
  {
    assert Unfinished(s.db, id) <==> id in found;
  }

  lemma TidyStep(s: State, a: Act, id: Id)
    requires TidyAt(s, id) && Enabled(s, a)
    ensures TidyAt(Step(s, a), id)
  {
    match a
    case Create(_, _, _, _, _, _) => TidyByArrival(s, a, id);
    case Retry(_, _, _, _) => TidyByArrival(s, a, id);
    case LeasePass(_, _, _, _, _) => TidyByLease(s, a, id);
    case Heartbeat(_, _, _) => TidyByWorker(s, a, id);
    case CompleteBegin(_, _) => TidyByWorker(s, a, id);
    case CompleteEnd(_, _, _, _) => TidyByEnd(s, a, id);
    case Cancel(_, _, _) => TidyByCancel(s, a, id);
    case Recover(found, now) => TidyByRecovery(s, found, now, id);
    case _ =>
  }

  lemma {:induction false} MemoryIsTidy(tr: seq<State>, acts: seq<Act>, n: nat, id: Id)
    requires Life(tr, acts) && n <= |acts|
    ensures TidyAt(tr[n], id)
  {
    if n > 0 {
      MemoryIsTidy(tr, acts, n - 1, id);
      assert StepAt(tr, acts, n - 1);
      TidyStep(tr[n - 1], acts[n - 1], id);
      assert tr[n] == Step(tr[n - 1], acts[n - 1]);
    }
  }

  /** A flush that succeeded lets go of exactly the tasks it had taken that are
      finished and were not touched since, and changes no other task. */
  lemma FlushEvicts(tr: seq<State>, acts: seq<Act>, n: nat, id: Id)
    requires Life(tr, acts) && n < |acts| && acts[n].FlushOk? && id in tr[n].tasks
    ensures var (s, s') := (tr[n], tr[n + 1]);
            && s.flight.Some?
            && (id !in s'.tasks <==>
                id in s.flight.value.ids && id !in s.dirty && Finished(s.tasks[id].row.status))
            && (id in s'.tasks ==> s'.tasks[id] == s.tasks[id])
  {
    assert StepAt(tr, acts, n);
  }

  /** A flush that nothing disturbs stores all that is shown, and leaves nothing to
      store. */
  lemma FlushStores(tr: seq<State>, acts: seq<Act>, n: nat)
    requires Life(tr, acts) && n + 3 <= |acts| && acts[n..n + 3] == [FlushBegin, FlushWrite, FlushOk]
    ensures tr[n + 3].db == View(tr[n]) && View(tr[n + 3]) == View(tr[n])
    ensures tr[n + 3].dirty == {} && tr[n + 3].flight.None?
  {
    var s := tr[n];
    LifeRefines(tr, acts, n);
    assert acts[n..n + 3][0] == acts[n] && acts[n..n + 3][1] == acts[n + 1] && acts[n..n + 3][2] == acts[n + 2];
    assert StepAt(tr, acts, n) && StepAt(tr, acts, n + 1) && StepAt(tr, acts, n + 2);
    FlushCaptures(s);
    FlushIsInvisible(s, FlushBegin);
    StepKeepsInv(s, FlushBegin);
    FlushIsInvisible(tr[n + 1], FlushWrite);
    StepKeepsInv(tr[n + 1], FlushWrite);
    FlushIsInvisible(tr[n + 2], FlushOk);
  }

  /** With nothing left to store, a recovered server's memory holds exactly the
      tasks that have not finished. */
  lemma StoredMeansSmall(tr: seq<State>, acts: seq<Act>, n: nat, id: Id)
    requires Life(tr, acts) && n <= |acts| && tr[n].recovered
    requires tr[n].dirty == {} && tr[n].flight.None?
    ensures id in tr[n].tasks <==> id in View(tr[n]) && !Finished(View(tr[n])[id].status)
  {
    MemoryIsTidy(tr, acts, n, id);
    LifeRefines(tr, acts, n);
    assert InvAt(tr[n], id);
  }
}
