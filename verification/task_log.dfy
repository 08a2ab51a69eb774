/**
 A leased task and its log together, over any number of server lives: the worker
 reports the task's end only after its sender has returned, so a task that counts
 as ended by its worker has its whole log on the server.
 */
module TaskLog {
  import opened TaskPool
  import TaskLedger
  import TaskHistory
  import TaskEffects
  import EventLog
  import opened Options

  datatype World = World(pool: State, log: EventLog.World)

  datatype Act = Server(a: TaskPool.Act) | Worker(b: EventLog.Act) | Crash

  /** The task is in memory and nobody holds it: so it is after a restart. */
  predicate Unheld(s: State, id: Id) {
    id in s.tasks && s.tasks[id].lease.None?
  }

  /** The worker that holds `token` reports the end of task `id` last of all, and
      while nobody holds the task no other worker presents a token for it. A crash
      finds the lease stored: otherwise the task would be handed out again. */
  ghost predicate Enabled(w: World, id: Id, token: string, act: Act) {
    match act
    case Server(a) =>
      && TaskPool.Enabled(w.pool, a)
      && (a.CompleteBegin? && a.id == id && a.token == token ==> w.log.sender.Returned?)
      && ((a.Heartbeat? || a.CompleteBegin?) && a.id == id && Unheld(w.pool, id) ==> a.token == token)
    case Worker(b) => EventLog.Enabled(w.log, b)
    case Crash => id in w.pool.db && w.pool.db[id].status != Pending
  }

  ghost function Step(w: World, id: Id, token: string, act: Act): World
    requires Enabled(w, id, token, act)
  {
    match act
    case Server(a) => w.(pool := TaskPool.Step(w.pool, a))
    case Worker(b) => w.(log := EventLog.Step(w.log, b))
    case Crash => w.(pool := Boot(w.pool.db))
  }

  /** One step of the pool moves the row of a known task onward. */
  lemma PoolMoves(s: State, a: TaskPool.Act, id: Id)
    requires TaskPool.Inv(s) && TaskPool.Enabled(s, a) && id in View(s)
    ensures id in View(TaskPool.Step(s, a)) && TaskLedger.Onward(View(s)[id], View(TaskPool.Step(s, a))[id])
    ensures View(s)[id].status == Running && View(TaskPool.Step(s, a))[id].status !in {Running, Lost} ==>
              a.CompleteEnd? && a.id == id
  {
    var m := TaskLedger.Ledger(View(s), s.queue);
    forall i | i in m.order ensures i in m.rows { assert InvAt(s, i); }
    TaskLedger.StepRefines(s, m, a);
    TaskLedger.StepIsOnward(s, m, a, id);
    OnlyReportsEnd(m, TaskLedger.Meaning(s, a), id);
  }

  lemma OnlyReportsEnd(m: TaskLedger.Ledger, op: TaskLedger.Op, id: Id)
    requires id in m.rows && id in TaskLedger.Apply(m, op).rows && (op.Arrive? ==> op.id != id)
    ensures m.rows[id].status == Running && TaskLedger.Apply(m, op).rows[id].status !in {Running, Lost} ==>
              op.Report? && op.id == id
  {
  }

  lemma GrabbingCompletesNothing(s: State, worker: string, token: string, now: real)
    ensures Grab(s, worker, token, now).0.completing == s.completing
  {
  }

  lemma LeasingCompletesNothing(s: State, a: TaskPool.Act)
    requires a.LeasePass?
    ensures Pass(s, a).completing == s.completing
  {
    var s0 := if a.call in s.waiting then s.(arrived := false) else s;
    GrabbingCompletesNothing(s0, a.worker, a.token, a.now);
    var s1 := Grab(s0, a.worker, a.token, a.now).0;
    assert Pass(s, a) == s1.(waiting := Pass(s, a).waiting);
  }

  lemma BeatingCompletesNothing(s: State, a: TaskPool.Act)
    requires a.Heartbeat?
    ensures Beat(s, a).completing == s.completing
  {
  }

  lemma BeginningCompletes(s: State, a: TaskPool.Act, id: Id)
    requires a.CompleteBegin?
    ensures id in BeginComplete(s, a).completing ==>
              id in s.completing || (a.id == id && Owned(s, id, a.token).Some?)
  {
  }

  lemma EndingCompletesNothing(s: State, a: TaskPool.Act, id: Id)
    requires a.CompleteEnd? || a.Cancel?
    ensures a.CompleteEnd? ==> (id in EndComplete(s, a).completing ==> id in s.completing)
    ensures a.Cancel? ==> CancelTask(s, a).completing == s.completing
  {
  }

  lemma AddingCompletesNothing(s: State, a: TaskPool.Act)
    requires a.Create? || a.Retry?
    ensures a.Create? ==> CreateTask(s, a).completing == s.completing
    ensures a.Retry? ==> RetryTask(s, a).completing == s.completing
  {
  }

  lemma CompletingGrows(s: State, a: TaskPool.Act, id: Id)
    requires TaskPool.Enabled(s, a)
    ensures id in TaskPool.Step(s, a).completing ==>
              id in s.completing || (a.CompleteBegin? && a.id == id && Owned(s, id, a.token).Some?)
  {
    match a
    case Create(_, _, _, _, _, _) => AddingCompletesNothing(s, a);
    case Retry(_, _, _, _) => AddingCompletesNothing(s, a);
    case LeasePass(_, _, _, _, _) => LeasingCompletesNothing(s, a);
    case Heartbeat(_, _, _) => BeatingCompletesNothing(s, a);
    case CompleteBegin(_, _) => BeginningCompletes(s, a, id);
    case CompleteEnd(_, _, _, _) => EndingCompletesNothing(s, a, id);
    case Cancel(_, _, _) => EndingCompletesNothing(s, a, id);
    case _ =>
  }

  /** No token but this one is on the task while it runs. */
  predicate LeaseFits(s: State, id: Id, token: string) {
    id in s.tasks && s.tasks[id].row.status == Running ==> s.tasks[id].lease in {None, Some(token)}
  }

  lemma FitsByLease(s: State, a: TaskPool.Act, id: Id, token: string)
    requires LeaseFits(s, id, token) && id in View(s) && View(s)[id].status == Running && a.LeasePass?
    ensures LeaseFits(Pass(s, a), id, token)
  {
    TaskLedger.PassGrabs(s, a);
  }

  lemma FitsByWorker(s: State, a: TaskPool.Act, id: Id, token: string)
    requires LeaseFits(s, id, token) && (a.Heartbeat? || a.CompleteBegin?)
    requires a.id == id && Unheld(s, id) ==> a.token == token
    ensures a.Heartbeat? ==> LeaseFits(Beat(s, a), id, token)
    ensures a.CompleteBegin? ==> LeaseFits(BeginComplete(s, a), id, token)
  {
  }

  lemma FitsByEnd(s: State, a: TaskPool.Act, id: Id, token: string)
    requires LeaseFits(s, id, token) && (a.CompleteEnd? || a.Cancel?)
    ensures a.CompleteEnd? ==> LeaseFits(EndComplete(s, a), id, token)
    ensures a.Cancel? && id in View(s) && View(s)[id].status == Running ==> LeaseFits(CancelTask(s, a), id, token)
  {
  }

  lemma FitsByReaper(s: State, now: real, id: Id, token: string)
    requires LeaseFits(s, id, token)
    ensures LeaseFits(ReapQuiet(s, now), id, token)
  {
  }

  lemma FitsByRecovery(s: State, found: seq<Id>, now: real, id: Id, token: string)
    requires LeaseFits(s, id, token)
    ensures LeaseFits(RecoverTasks(s, found, now), id, token)
  {
  }

  lemma FitsStep(s: State, a: TaskPool.Act, id: Id, token: string)
    requires LeaseFits(s, id, token) && id in View(s) && View(s)[id].status == Running
    requires TaskPool.Enabled(s, a)
    requires (a.Heartbeat? || a.CompleteBegin?) && a.id == id && Unheld(s, id) ==> a.token == token
    ensures LeaseFits(TaskPool.Step(s, a), id, token)
  {
    match a
    case LeasePass(_, _, _, _, _) => FitsByLease(s, a, id, token);
    case Heartbeat(_, _, _) => FitsByWorker(s, a, id, token);
    case CompleteBegin(_, _) => FitsByWorker(s, a, id, token);
    case CompleteEnd(_, _, _, _) => FitsByEnd(s, a, id, token);
    case Cancel(_, _, _) => FitsByEnd(s, a, id, token);
    case Reap(now) => FitsByReaper(s, now, id, token);
    case Recover(found, now) => FitsByRecovery(s, found, now, id, token);
    case _ =>
  }

  /** A row that says its worker ended the task. */
  predicate Reported(row: Row) {
    row.status in {Done, Failed, Cancelled}
  }

  /** Such a row is shown, stored or on its way to the store. */
  predicate ReportedSomewhere(s: State, id: Id) {
    || (id in View(s) && Reported(View(s)[id])) || (id in s.db && Reported(s.db[id]))
    || (s.flight.Some? && id in s.flight.value.rows && Reported(s.flight.value.rows[id]))
  }

  lemma StoreReports(s: State, a: TaskPool.Act, id: Id)
    requires TaskPool.Enabled(s, a)
    ensures var t := TaskPool.Step(s, a);
            (id in t.db && Reported(t.db[id]))
            || (t.flight.Some? && id in t.flight.value.rows && Reported(t.flight.value.rows[id])) ==>
              ReportedSomewhere(s, id)
  {
    if !a.FlushBegin? && !a.FlushWrite? && !a.FlushOk? && !a.FlushFail? { TaskHistory.OnlyFlushTouchesDb(s, a); }
  }

  /** The task runs under this worker's token or none, or has ended; and whoever has
      begun to complete it, or ended it other than as lost, is a worker that sent
      all it had. */
  ghost predicate Inv(w: World, id: Id, token: string) {
    && TaskPool.Inv(w.pool) && EventLog.Inv(w.log)
    && id in View(w.pool) && View(w.pool)[id].status != Pending && LeaseFits(w.pool, id, token)
    && (id in w.pool.completing || ReportedSomewhere(w.pool, id) ==> w.log.sender.Returned?)
  }

  lemma ServerInv(w: World, id: Id, token: string, a: TaskPool.Act)
    requires Inv(w, id, token) && Enabled(w, id, token, Server(a))
    ensures Inv(Step(w, id, token, Server(a)), id, token)
  {
    var s := w.pool;
    TaskPool.StepKeepsInv(s, a);
    assert InvAt(s, id) && InvAt(TaskPool.Step(s, a), id);
    PoolMoves(s, a, id);
    CompletingGrows(s, a, id);
    StoreReports(s, a, id);
    if View(s)[id].status == Running {
      FitsStep(s, a, id, token);
    } else if a.CompleteBegin? {
      TaskHistory.EndedRefuses(s, id, a.token);
    }
  }

  lemma WorkerInv(w: World, id: Id, token: string, b: EventLog.Act)
    requires Inv(w, id, token) && Enabled(w, id, token, Worker(b))
    ensures Inv(Step(w, id, token, Worker(b)), id, token)
  {
    EventLog.StepKeepsInv(w.log, b);
    EventLog.StepOnlyExtends(w.log, b);
  }

  lemma CrashInv(w: World, id: Id, token: string)
    requires Inv(w, id, token) && Enabled(w, id, token, Crash)
    ensures Inv(Step(w, id, token, Crash), id, token)
  {
    BootInv(w.pool.db);
  }

  ghost predicate StepAt(tr: seq<World>, acts: seq<Act>, id: Id, token: string, i: nat)
    requires i < |acts| && |tr| == |acts| + 1
  {
    Enabled(tr[i], id, token, acts[i]) && tr[i + 1] == Step(tr[i], id, token, acts[i])
  }

  /** From the moment of a lease on: a worker holds the task, nobody has begun to
      complete it, no end of it is stored, and the log is in any state that it can
      be in, such as how the lease found it. */
  ghost predicate Begins(w: World, id: Id, token: string) {
    && TaskPool.Inv(w.pool) && TaskHistory.Holds(w.pool, id, token)
    && id !in w.pool.completing && !ReportedSomewhere(w.pool, id)
    && EventLog.Inv(w.log)
  }

  ghost predicate Run(tr: seq<World>, acts: seq<Act>, id: Id, token: string) {
    && |tr| == |acts| + 1 && Begins(tr[0], id, token)
    && forall i: nat :: i < |acts| ==> StepAt(tr, acts, id, token, i)
  }

  /** In a server's life a task that runs has no end stored or on its way, so a
      lease does begin like that. */
  lemma LeaseBegins(tr: seq<State>, acts: seq<TaskPool.Act>, n: nat, id: Id, token: string,
                    cap: nat, start: EventLog.Bytes)
    requires TaskHistory.Life(tr, acts) && n <= |acts| && TaskHistory.Holds(tr[n], id, token)
    requires id !in tr[n].completing && |start| < cap + EventLog.CHUNK
    ensures Begins(World(tr[n], EventLog.Leased(cap, start)), id, token)
  {
    TaskHistory.LifeRefines(tr, acts, n);
    EventLog.LeasedInv(cap, start);
    assert LeaseAt(tr[n], id) by { assert InvAt(tr[n], id); }
    RunningIsNotReported(tr, acts, n, id);
  }

  lemma RunningIsNotReported(tr: seq<State>, acts: seq<TaskPool.Act>, n: nat, id: Id)
    requires TaskHistory.Life(tr, acts) && n <= |acts| && id in View(tr[n]) && View(tr[n])[id].status == Running
    ensures !ReportedSomewhere(tr[n], id)
  {
    var source, begin := TaskHistory.Source(acts, n), TaskHistory.LastBegin(acts, n);
    TaskHistory.DatabaseIsASnapshot(tr, acts, n);
    if id in View(tr[source]) { TaskHistory.RowsMoveOnward(tr, acts, source, n, id); }
    if id in View(tr[begin]) { TaskHistory.RowsMoveOnward(tr, acts, begin, n, id); }
  }

  lemma NoneCompleting(tr: seq<State>, acts: seq<TaskPool.Act>, n: nat, id: Id)
    requires TaskHistory.Life(tr, acts) && n < |acts| && acts[n].LeasePass? && TaskLedger.Waits(View(tr[n]), id)
    ensures id !in tr[n + 1].completing
  {
    TaskHistory.LifeRefines(tr, acts, n);
    assert TaskHistory.StepAt(tr, acts, n) && LeaseAt(tr[n], id) by { assert InvAt(tr[n], id); }
    LeasingCompletesNothing(tr[n], acts[n]);
  }

  /** And every hand-out of a waiting task is such a beginning, for the token of
      the lease call that got it. */
  lemma HandOutBegins(tr: seq<State>, acts: seq<TaskPool.Act>, n: nat, id: Id, cap: nat, start: EventLog.Bytes)
    requires TaskHistory.Life(tr, acts) && n < |acts| && acts[n].LeasePass? && |start| < cap + EventLog.CHUNK
    requires TaskLedger.Waits(View(tr[n]), id) && !TaskLedger.Waits(View(tr[n + 1]), id)
    ensures Begins(World(tr[n + 1], EventLog.Leased(cap, start)), id, acts[n].token)
  {
    TaskEffects.HandOutLeases(tr, acts, n, id);
    NoneCompleting(tr, acts, n, id);
    LeaseBegins(tr, acts, n + 1, id, acts[n].token, cap, start);
  }

  lemma {:induction false} RunKeepsInv(tr: seq<World>, acts: seq<Act>, id: Id, token: string, n: nat)
    requires Run(tr, acts, id, token) && n <= |acts|
    ensures Inv(tr[n], id, token)
  {
    if n == 0 {
      assert InvAt(tr[0].pool, id);
    } else {
      RunKeepsInv(tr, acts, id, token, n - 1);
      assert StepAt(tr, acts, id, token, n - 1);
      match acts[n - 1]
      case Server(a) => ServerInv(tr[n - 1], id, token, a);
      case Worker(b) => WorkerInv(tr[n - 1], id, token, b);
      case Crash => CrashInv(tr[n - 1], id, token);
    }
  }

  /** Whatever else the pool, its other workers, the network and crashes of the
      server do: a task that is done, failed or cancelled was ended by its own
      worker after its sender had returned, so the server has the whole stream of
      that moment, or its file has reached the cap. Only a lost task may lack the
      rest of its log. */
  lemma EndedMeansWholeLog(tr: seq<World>, acts: seq<Act>, id: Id, token: string, n: nat)
    requires Run(tr, acts, id, token) && n <= |acts|
    requires id in View(tr[n].pool) && Reported(View(tr[n].pool)[id])
    ensures var log := tr[n].log;
            log.sender.Returned? && if log.spool.stopped then |log.file| >= log.cap else log.file == log.sender.whole
  {
    RunKeepsInv(tr, acts, id, token, n);
  }
}
