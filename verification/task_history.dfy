/**
 Whole server lives: what holds after any number of steps, in any order,
 with any database outcome, and what a crash or a shutdown leaves behind.
 */
module TaskHistory {
  import opened Options
  import opened TaskPool
  import opened TaskLedger

  ghost predicate StepAt(tr: seq<State>, acts: seq<Act>, i: nat)
    requires i < |acts| && |tr| == |acts| + 1
  {
    Enabled(tr[i], acts[i]) && tr[i + 1] == Step(tr[i], acts[i])
  }

  /** A server life: it boots over some database and then takes any steps. */
  ghost predicate Life(tr: seq<State>, acts: seq<Act>) {
    && |tr| == |acts| + 1
    && tr[0] == Boot(tr[0].db)
    && forall i: nat :: i < |acts| ==> StepAt(tr, acts, i)
  }

  /** The plain ledger, driven by the same actions. */
  ghost function LedgerAt(tr: seq<State>, acts: seq<Act>, n: nat): Ledger
    requires n <= |acts| && |tr| == |acts| + 1
  {
    if n == 0 then Ledger(tr[0].db, [])
    else Apply(LedgerAt(tr, acts, n - 1), Meaning(tr[n - 1], acts[n - 1]))
  }

  /** Memory over database equals the plain task map after every history. */
  lemma {:induction false} LifeRefines(tr: seq<State>, acts: seq<Act>, n: nat)
    requires Life(tr, acts) && n <= |acts|
    ensures Inv(tr[n])
    ensures Shows(tr[n], LedgerAt(tr, acts, n))
    ensures Orderly(LedgerAt(tr, acts, n))
  {
    if n == 0 {
      BootInv(tr[0].db);
    } else {
      LifeRefines(tr, acts, n - 1);
      assert StepAt(tr, acts, n - 1);
      StepKeepsInv(tr[n - 1], acts[n - 1]);
      StepRefines(tr[n - 1], LedgerAt(tr, acts, n - 1), acts[n - 1]);
    }
  }

  // Rows over time.

  lemma RowMoves(tr: seq<State>, acts: seq<Act>, n: nat, id: Id)
    requires Life(tr, acts) && n < |acts| && id in View(tr[n])
    ensures id in View(tr[n + 1]) && Onward(View(tr[n])[id], View(tr[n + 1])[id])
    ensures Edge(View(tr[n])[id].status, View(tr[n + 1])[id].status)
  {
    LifeRefines(tr, acts, n);
    LifeRefines(tr, acts, n + 1);
    assert StepAt(tr, acts, n);
    StepIsOnward(tr[n], LedgerAt(tr, acts, n), acts[n], id);
    assert View(tr[n + 1]) == LedgerAt(tr, acts, n + 1).rows;
  }

  lemma {:induction false} RowsMoveOnward(tr: seq<State>, acts: seq<Act>, i: nat, j: nat, id: Id)
    requires Life(tr, acts) && i <= j <= |acts| && id in View(tr[i])
    ensures id in View(tr[j]) && Onward(View(tr[i])[id], View(tr[j])[id])
  {
    if i < j {
      RowsMoveOnward(tr, acts, i, j - 1, id);
      RowMoves(tr, acts, j - 1, id);
      OnwardTransitive(View(tr[i])[id], View(tr[j - 1])[id], View(tr[j])[id]);
    }
  }

  /** Status edges, step by step: pending to running or cancelled, running to
      an end, and nothing out of an end, whoever acts in between. */
  lemma EveryEdgeIsLegal(tr: seq<State>, acts: seq<Act>, n: nat, id: Id)
    requires Life(tr, acts) && n < |acts| && id in View(tr[n])
    ensures id in View(tr[n + 1]) && Edge(View(tr[n])[id].status, View(tr[n + 1])[id].status)
  {
    RowMoves(tr, acts, n, id);
  }

  // Leases.

  predicate Holds(s: State, id: Id, token: string) {
    id in s.tasks && s.tasks[id].lease == Some(token)
  }

  predicate Over(s: State, id: Id) {
    id in View(s) && Finished(View(s)[id].status)
  }

  lemma LeaseKeptByPass(s: State, a: Act, id: Id, token: string)
    requires LeaseAt(s, id) && Holds(s, id, token) && a.LeasePass?
    ensures Holds(Pass(s, a), id, token)
  {
    PassGrabs(s, a);
  }

  lemma LeaseKeptByWorker(s: State, a: Act, id: Id, token: string)
    requires Holds(s, id, token) && (a.Heartbeat? || a.CompleteBegin?)
    ensures a.Heartbeat? ==> Holds(Beat(s, a), id, token)
    ensures a.CompleteBegin? ==> Holds(BeginComplete(s, a), id, token)
  {
  }

  lemma LeaseEndedByReport(s: State, a: Act, id: Id, token: string)
    requires Holds(s, id, token) && a.CompleteEnd?
    ensures Holds(EndComplete(s, a), id, token) || Over(EndComplete(s, a), id)
  {
  }

  lemma LeaseKeptByCancel(s: State, a: Act, id: Id, token: string)
    requires Holds(s, id, token) && a.Cancel?
    ensures Holds(CancelTask(s, a), id, token)
  {
  }

  lemma LeaseEndedByReaper(s: State, now: real, id: Id, token: string)
    requires Holds(s, id, token)
    ensures Holds(ReapQuiet(s, now), id, token) || Over(ReapQuiet(s, now), id)
  {
  }

  lemma LeaseStep(s: State, a: Act, id: Id, token: string)
    requires LeaseAt(s, id) && Enabled(s, a) && Holds(s, id, token)
    ensures Holds(Step(s, a), id, token) || Over(Step(s, a), id)
  {
    match a
    case LeasePass(_, _, _, _, _) => LeaseKeptByPass(s, a, id, token);
    case Heartbeat(_, _, _) => LeaseKeptByWorker(s, a, id, token);
    case CompleteBegin(_, _) => LeaseKeptByWorker(s, a, id, token);
    case CompleteEnd(_, _, _, _) => LeaseEndedByReport(s, a, id, token);
    case Cancel(_, _, _) => LeaseKeptByCancel(s, a, id, token);
    case Reap(now) => LeaseEndedByReaper(s, now, id, token);
    case _ =>
  }

  lemma HeldOrOver(tr: seq<State>, acts: seq<Act>, n: nat, id: Id, token: string)
    requires Life(tr, acts) && n < |acts| && (Holds(tr[n], id, token) || Over(tr[n], id))
    ensures Holds(tr[n + 1], id, token) || Over(tr[n + 1], id)
  {
    LifeRefines(tr, acts, n);
    assert StepAt(tr, acts, n) && InvAt(tr[n], id);
    if Over(tr[n], id) {
      RowsMoveOnward(tr, acts, n, n + 1, id);
    } else {
      LeaseStep(tr[n], acts[n], id, token);
      assert tr[n + 1] == Step(tr[n], acts[n]);
    }
  }

  /** A lease, granted or adopted, stays with its token until the task ends. */
  lemma {:induction false} LeaseStays(tr: seq<State>, acts: seq<Act>, i: nat, j: nat, id: Id, token: string)
    requires Life(tr, acts) && i <= j <= |acts| && Holds(tr[i], id, token)
    ensures Holds(tr[j], id, token) || Over(tr[j], id)
  {
    if i < j {
      LeaseStays(tr, acts, i, j - 1, id, token);
      HeldOrOver(tr, acts, j - 1, id, token);
    }
  }

  lemma AcceptedHolds(s: State, id: Id, token: string)
    requires InvAt(s, id) && Owned(s, id, token).Some?
    ensures Holds(Owned(s, id, token).value, id, token) && token != ""
    ensures id in s.tasks && s.tasks[id].row.status == Running && s.tasks[id].lease in {None, Some(token)}
    ensures Owned(s, id, token).value == s.(tasks := s.tasks[id := s.tasks[id].(lease := Some(token))])
  {
  }

  lemma EndedRefuses(s: State, id: Id, token: string)
    requires InvAt(s, id) && Over(s, id)
    ensures Owned(s, id, token).None?
  {
  }

  /** Once any token was accepted for a task, every other one is refused for
      the rest of the life, and all are refused once the task has ended. */
  lemma StrangersAreRefused(tr: seq<State>, acts: seq<Act>, i: nat, j: nat, id: Id, token: string, other: string)
    requires Life(tr, acts) && i <= j <= |acts| && Holds(tr[i], id, token)
    ensures other != token || Over(tr[j], id) ==> Owned(tr[j], id, other).None?
  {
    LeaseStays(tr, acts, i, j, id, token);
    LifeRefines(tr, acts, j);
    assert InvAt(tr[j], id);
    if Over(tr[j], id) { EndedRefuses(tr[j], id, other); }
  }

  // The reaper.

  predicate BeatSince(s: State, id: Id, t: real) {
    && id in s.tasks && s.tasks[id].row.status == Running
    && s.tasks[id].heartbeat.Some? && s.tasks[id].heartbeat.value >= t
  }

  /** Running in memory, last heard from exactly then. */
  predicate Beats(s: State, id: Id, h: real) {
    id in s.tasks && s.tasks[id].row.status == Running && s.tasks[id].heartbeat == Some(h)
  }

  lemma BeatByLease(s: State, a: Act, id: Id, h: real)
    requires Beats(s, id, h) && a.LeasePass?
    ensures Beats(Pass(s, a), id, h)
  {
    PassGrabs(s, a);
  }

  lemma BeatByWorker(s: State, a: Act, id: Id, h: real)
    requires Beats(s, id, h) && (a.Heartbeat? || a.CompleteBegin?)
    ensures a.Heartbeat? ==> Beats(Beat(s, a), id, h) || (a.id == id && Beats(Beat(s, a), id, a.now))
    ensures a.CompleteBegin? ==> Beats(BeginComplete(s, a), id, h)
  {
  }

  lemma BeatByEnd(s: State, a: Act, id: Id, h: real)
    requires Beats(s, id, h) && a.CompleteEnd?
    ensures Beats(EndComplete(s, a), id, h) || Over(EndComplete(s, a), id)
  {
  }

  lemma BeatByCancel(s: State, a: Act, id: Id, h: real)
    requires Beats(s, id, h) && a.Cancel?
    ensures Beats(CancelTask(s, a), id, h)
  {
  }

  lemma BeatByReap(s: State, now: real, id: Id, h: real)
    requires Beats(s, id, h)
    ensures Beats(ReapQuiet(s, now), id, h) || Over(ReapQuiet(s, now), id)
  {
  }

  /** Only an own heartbeat changes when a running task was last heard from. */
  lemma BeatStep(s: State, a: Act, id: Id, h: real)
    requires InvAt(s, id) && Enabled(s, a) && Beats(s, id, h)
    ensures Beats(Step(s, a), id, h) || Over(Step(s, a), id)
            || (a.Heartbeat? && a.id == id && Beats(Step(s, a), id, a.now))
  {
    match a
    case LeasePass(_, _, _, _, _) => BeatByLease(s, a, id, h);
    case Heartbeat(_, _, _) => BeatByWorker(s, a, id, h);
    case CompleteBegin(_, _) => BeatByWorker(s, a, id, h);
    case CompleteEnd(_, _, _, _) => BeatByEnd(s, a, id, h);
    case Cancel(_, _, _) => BeatByCancel(s, a, id, h);
    case Reap(now) => BeatByReap(s, now, id, h);
    case _ =>
  }

  lemma BeatMoves(tr: seq<State>, acts: seq<Act>, n: nat, id: Id, h: real)
    requires Life(tr, acts) && n < |acts| && Beats(tr[n], id, h)
    ensures Beats(tr[n + 1], id, h) || Over(tr[n + 1], id)
            || (acts[n].Heartbeat? && acts[n].id == id && Beats(tr[n + 1], id, acts[n].now))
  {
    LifeRefines(tr, acts, n);
    assert StepAt(tr, acts, n) && InvAt(tr[n], id);
    BeatStep(tr[n], acts[n], id, h);
    assert tr[n + 1] == Step(tr[n], acts[n]);
  }

  /** A running task stays heard from, up to its end, as long as its own
      heartbeats do not go back in time. */
  lemma {:induction false} BeatStays(tr: seq<State>, acts: seq<Act>, i: nat, j: nat, id: Id, t: real)
    requires Life(tr, acts) && i <= j <= |acts| && BeatSince(tr[i], id, t)
    requires forall k :: i <= k < j && acts[k].Heartbeat? && acts[k].id == id ==> acts[k].now >= t
    ensures BeatSince(tr[j], id, t) || Over(tr[j], id)
  {
    if i < j {
      BeatStays(tr, acts, i, j - 1, id, t);
      if Over(tr[j - 1], id) {
        RowsMoveOnward(tr, acts, j - 1, j, id);
      } else {
        BeatMoves(tr, acts, j - 1, id, tr[j - 1].tasks[id].heartbeat.value);
      }
    }
  }

  /** Nobody is lost early: a task whose worker was heard from at time t is not
      taken for lost by any reaper that comes no later than t plus the limit. */
  lemma NobodyLostEarly(tr: seq<State>, acts: seq<Act>, i: nat, j: nat, id: Id, t: real)
    requires Life(tr, acts) && i <= j < |acts| && BeatSince(tr[i], id, t)
    requires forall k :: i <= k < j && acts[k].Heartbeat? && acts[k].id == id ==> acts[k].now >= t
    requires acts[j].Reap? && acts[j].now <= t + LOST_AFTER
    ensures id in View(tr[j]) && id in View(tr[j + 1]) && View(tr[j + 1])[id] == View(tr[j])[id]
  {
    BeatStays(tr, acts, i, j, id, t);
    assert StepAt(tr, acts, j);
    if Over(tr[j], id) {
      RowsMoveOnward(tr, acts, j, j + 1, id);
    }
  }

  predicate QuietSince(s: State, id: Id, t: real) {
    && id in s.tasks && s.tasks[id].row.status == Running
    && s.tasks[id].heartbeat.Some? && s.tasks[id].heartbeat.value <= t
  }

  lemma {:induction false} QuietStays(tr: seq<State>, acts: seq<Act>, i: nat, j: nat, id: Id, t: real)
    requires Life(tr, acts) && i <= j <= |acts| && QuietSince(tr[i], id, t)
    requires forall k :: i <= k < j && acts[k].Heartbeat? && acts[k].id == id ==> acts[k].now <= t
    ensures QuietSince(tr[j], id, t) || Over(tr[j], id)
  {
    if i < j {
      QuietStays(tr, acts, i, j - 1, id, t);
      if Over(tr[j - 1], id) {
        RowsMoveOnward(tr, acts, j - 1, j, id);
      } else {
        BeatMoves(tr, acts, j - 1, id, tr[j - 1].tasks[id].heartbeat.value);
      }
    }
  }

  /** And nobody stays running for ever: a task whose worker was not heard from
      after time t has ended once a reaper came later than t plus the limit, as
      a lost one if nothing else had ended it. */
  lemma QuietIsLost(tr: seq<State>, acts: seq<Act>, i: nat, j: nat, id: Id, t: real)
    requires Life(tr, acts) && i <= j < |acts| && QuietSince(tr[i], id, t)
    requires forall k :: i <= k < j && acts[k].Heartbeat? && acts[k].id == id ==> acts[k].now <= t
    requires acts[j].Reap? && acts[j].now > t + LOST_AFTER
    ensures Over(tr[j + 1], id)
    ensures !Over(tr[j], id) ==> View(tr[j + 1])[id].status == Lost
  {
    QuietStays(tr, acts, i, j, id, t);
    assert StepAt(tr, acts, j);
    if Over(tr[j], id) {
      RowsMoveOnward(tr, acts, j, j + 1, id);
    }
  }

  // The queue.

  lemma OnlyOldestLeaves(m: Ledger, worker: string, now: real, j: nat)
    requires Distinct(m.order) && j < |m.order|
    requires Waits(m.rows, m.order[j]) && !Waits(Apply(m, HandOut(worker, now)).rows, m.order[j])
    ensures forall i :: 0 <= i < j ==> !Waits(m.rows, m.order[i])
  {
    var k := Oldest(m.rows, m.order);
    assert k <= j;
  }

  /** Leases go out in arrival order: when a task is handed out, none that
      arrived before it is still waiting. */
  lemma HandedOutInOrder(tr: seq<State>, acts: seq<Act>, n: nat, i: nat, j: nat)
    requires Life(tr, acts) && n < |acts| && acts[n].LeasePass?
    requires i < j < |LedgerAt(tr, acts, n).order|
    requires var id := LedgerAt(tr, acts, n).order[j]; Waits(View(tr[n]), id) && !Waits(View(tr[n + 1]), id)
    ensures !Waits(View(tr[n]), LedgerAt(tr, acts, n).order[i])
  {
    var m, next := LedgerAt(tr, acts, n), LedgerAt(tr, acts, n + 1);
    assert Orderly(m) && View(tr[n]) == m.rows by { LifeRefines(tr, acts, n); }
    assert View(tr[n + 1]) == next.rows by { LifeRefines(tr, acts, n + 1); }
    assert next == Apply(m, HandOut(acts[n].worker, acts[n].now));
    OnlyOldestLeaves(m, acts[n].worker, acts[n].now, j);
  }

  /** A worker that sits blocked and unsignalled means that nothing waits. */
  lemma NoLostWakeUp(tr: seq<State>, acts: seq<Act>, n: nat, call: Call, id: Id)
    requires Life(tr, acts) && n <= |acts| && tr[n].recovered
    requires call in tr[n].waiting && !tr[n].waiting[call]
    ensures !Waits(View(tr[n]), id)
  {
    LifeRefines(tr, acts, n);
    assert InvAt(tr[n], id);
  }

  // The database.

  /** The index of the last flush begun before step n. */
  ghost function LastBegin(acts: seq<Act>, n: nat): (b: nat)
    requires n <= |acts|
    ensures b <= n
  {
    if n == 0 then 0
    else if acts[n - 1].FlushBegin? then n - 1
    else LastBegin(acts, n - 1)
  }

  /** The index of the state that the database holds after n steps: where the
      last flush that reached it had begun. */
  ghost function Source(acts: seq<Act>, n: nat): (b: nat)
    requires n <= |acts|
    ensures b <= n
  {
    if n == 0 then 0
    else if acts[n - 1].FlushWrite? then LastBegin(acts, n - 1)
    else Source(acts, n - 1)
  }

  lemma FlushCaptures(s: State)
    requires Inv(s) && s.flight.None? && s.dirty != {}
    ensures s.db + BeginFlush(s).flight.value.rows == View(s)
  {
    var rows := BeginFlush(s).flight.value.rows;
    forall i ensures (i in s.db + rows <==> i in View(s)) && (i in View(s) ==> (s.db + rows)[i] == View(s)[i]) {
      assert InvAt(s, i);
    }
  }

  predicate SameStore(s: State, t: State) {
    t.db == s.db && t.flight == s.flight
  }

  lemma WorkersLeaveTheStore(s: State, a: Act)
    ensures a.Heartbeat? ==> SameStore(s, Beat(s, a))
    ensures a.CompleteBegin? ==> SameStore(s, BeginComplete(s, a))
  {
  }

  lemma LeasesLeaveTheStore(s: State, a: Act)
    ensures a.LeasePass? ==> SameStore(s, Pass(s, a))
  {
  }

  lemma EndsLeaveTheStore(s: State, a: Act)
    ensures a.CompleteEnd? ==> SameStore(s, EndComplete(s, a))
    ensures a.Cancel? ==> SameStore(s, CancelTask(s, a))
  {
  }

  lemma OnlyFlushTouchesDb(s: State, a: Act)
    requires Enabled(s, a) && !a.FlushBegin? && !a.FlushWrite? && !a.FlushOk? && !a.FlushFail?
    ensures SameStore(s, Step(s, a))
  {
    WorkersLeaveTheStore(s, a);
    LeasesLeaveTheStore(s, a);
    EndsLeaveTheStore(s, a);
  }

  /** The store against two maps: the one it holds, and the one it holds once
      the flush in the air is written. */
  predicate Holding(s: State, held: map<Id, Row>, sent: map<Id, Row>) {
    s.db == held && (s.flight.Some? ==> s.db + s.flight.value.rows == sent && (s.flight.value.written ==> held == sent))
  }

  lemma FlushMoves(s: State, a: Act, held: map<Id, Row>, sent: map<Id, Row>)
    requires Inv(s) && Enabled(s, a) && Holding(s, held, sent)
    requires a.FlushBegin? || a.FlushWrite?
    ensures Holding(Step(s, a), if a.FlushWrite? then sent else held, if a.FlushBegin? then View(s) else sent)
  {
    if a.FlushBegin? {
      if s.dirty != {} { FlushCaptures(s); }
    } else {
      assert WriteFlush(s).db + s.flight.value.rows == WriteFlush(s).db;
    }
  }

  lemma StoreMoves(s: State, a: Act, held: map<Id, Row>, sent: map<Id, Row>)
    requires Inv(s) && Enabled(s, a) && Holding(s, held, sent)
    ensures Holding(Step(s, a), if a.FlushWrite? then sent else held, if a.FlushBegin? then View(s) else sent)
  {
    match a
    case FlushBegin => FlushMoves(s, a, held, sent);
    case FlushWrite => FlushMoves(s, a, held, sent);
    case FlushOk =>
    case FlushFail =>
    case _ => OnlyFlushTouchesDb(s, a);
  }

  /** The database is, at every moment, an exact copy of the whole ledger as it
      stood when the last flush that reached it began. */
  lemma {:induction false} DatabaseIsASnapshot(tr: seq<State>, acts: seq<Act>, n: nat)
    requires Life(tr, acts) && n <= |acts|
    ensures Holding(tr[n], View(tr[Source(acts, n)]), View(tr[LastBegin(acts, n)]))
  {
    if n == 0 {
      BootInv(tr[0].db);
    } else {
      DatabaseIsASnapshot(tr, acts, n - 1);
      LifeRefines(tr, acts, n - 1);
      assert StepAt(tr, acts, n - 1);
      StoreMoves(tr[n - 1], acts[n - 1], View(tr[Source(acts, n - 1)]), View(tr[LastBegin(acts, n - 1)]));
      assert tr[n] == Step(tr[n - 1], acts[n - 1]);
    }
  }

  lemma {:induction false} WrittenMeansReached(tr: seq<State>, acts: seq<Act>, n: nat)
    requires Life(tr, acts) && n <= |acts|
    ensures tr[n].flight.Some? && tr[n].flight.value.written ==> Source(acts, n) == LastBegin(acts, n)
  {
    if n > 0 {
      WrittenMeansReached(tr, acts, n - 1);
      assert StepAt(tr, acts, n - 1);
      var s, a := tr[n - 1], acts[n - 1];
      if !a.FlushBegin? && !a.FlushWrite? && !a.FlushOk? && !a.FlushFail? { OnlyFlushTouchesDb(s, a); }
    }
  }

  lemma {:induction false} SourceGrows(acts: seq<Act>, k: nat, n: nat)
    requires k <= n <= |acts|
    ensures LastBegin(acts, k) <= LastBegin(acts, n) && Source(acts, k) <= Source(acts, n) <= LastBegin(acts, n)
  {
    if k < n {
      SourceGrows(acts, k, n - 1);
    } else if n > 0 {
      SourceGrows(acts, n - 1, n - 1);
    }
  }

  /** A change made before a flush began survives every later crash once that
      flush has succeeded: the database holds that row or a later one. */
  lemma FlushedIsDurable(tr: seq<State>, acts: seq<Act>, k: nat, n: nat, id: Id)
    requires Life(tr, acts) && k < n <= |acts| && acts[k].FlushOk?
    requires id in View(tr[LastBegin(acts, k)])
    ensures id in tr[n].db && Onward(View(tr[LastBegin(acts, k)])[id], tr[n].db[id])
  {
    assert StepAt(tr, acts, k);
    DatabaseIsASnapshot(tr, acts, k);
    DatabaseIsASnapshot(tr, acts, n);
    WrittenMeansReached(tr, acts, k);
    SourceGrows(acts, k, n);
    RowsMoveOnward(tr, acts, LastBegin(acts, k), Source(acts, n), id);
  }

  /** A crash at any step, mid-flush included, then a new server that recovers:
      it shows the ledger exactly as it stood at the snapshot, holds every
      unfinished task without a lease, counts the running ones as heard from, and
      queues each waiting one once. */
  lemma CrashRecovers(tr: seq<State>, acts: seq<Act>, n: nat, found: seq<Id>, now: real)
    requires Life(tr, acts) && n <= |acts| && AnswersUnfinished(tr[n].db, found)
    ensures var s := RecoverTasks(Boot(tr[n].db), found, now);
            && Inv(s) && s.recovered
            && View(s) == View(tr[Source(acts, n)])
            && Distinct(s.queue)
            && (forall id :: id in s.queue <==> Waits(View(s), id))
            && (forall id :: id in s.tasks <==> id in View(s) && !Finished(View(s)[id].status))
            && (forall id :: id in s.tasks ==> s.tasks[id].lease.None?)
            && (forall id :: id in s.tasks && s.tasks[id].row.status == Running ==> Beats(s, id, now))
  {
    var boot := Boot(tr[n].db);
    BootInv(tr[n].db);
    assert Enabled(boot, Recover(found, now));
    StepKeepsInv(boot, Recover(found, now));
    DatabaseIsASnapshot(tr, acts, n);
    RecoverView(boot, found, now);
    assert forall id :: Unfinished(tr[n].db, id) <==> id in found;
    forall id ensures id in Requeued(boot, found) <==> Waits(tr[n].db, id) { RequeuedHas(boot, found, id); }
  }

  // Shutdown.

  /** A graceful shutdown cancels the background writer wherever it is, which
      forgets the ids it had taken, and then flushes what is still dirty. */
  function ShutdownDb(s: State): map<Id, Row> {
    var begun := BeginFlush(s.(flight := None));
    if begun.flight.None? then s.db else WriteFlush(begun).db
  }

  predicate StoredAsIs(s: State, id: Id) {
    id in s.db && id in s.tasks && s.db[id] == s.tasks[id].row
  }

  predicate SavedAt(s: State, i: Id) {
    && (i in ShutdownDb(s) <==> i in View(s))
    && (i in View(s) ==> ShutdownDb(s)[i] == View(s)[i])
  }

  lemma ShutdownSavesIff(s: State, i: Id)
    requires WriteAt(s, i)
    ensures SavedAt(s, i) <==> (InFlight(s, i) ==> i in s.dirty || StoredAsIs(s, i))
  {
  }

  /** The cancelled flush had taken a change that neither reached the database
      nor is marked dirty again. */
  predicate Unsaved(s: State, id: Id) {
    && s.flight.Some? && !s.flight.value.written
    && id in s.flight.value.rows && id !in s.dirty
    && !(id in s.db && s.db[id] == s.flight.value.rows[id])
  }

  lemma UnsavedIff(s: State, id: Id)
    requires WriteAt(s, id)
    ensures Unsaved(s, id) <==> InFlight(s, id) && id !in s.dirty && !StoredAsIs(s, id)
  {
  }

  /** The last flush of a shutdown saves everything if no flush was cancelled, if
      it had been written, or if each row it had sent is stored already or will be
      sent again; otherwise it does not. */
  lemma ShutdownSavesAllIff(s: State)
    requires Inv(s)
    ensures ShutdownDb(s) == View(s) <==> forall id :: !Unsaved(s, id)
  {
    forall i ensures SavedAt(s, i) <==> !Unsaved(s, i) {
      assert InvAt(s, i);
      ShutdownSavesIff(s, i);
      UnsavedIff(s, i);
    }
    SameMaps(s);
  }

  lemma SameMaps(s: State)
    ensures ShutdownDb(s) == View(s) <==> forall i :: SavedAt(s, i)
  {
    var a, b := ShutdownDb(s), View(s);
    if forall i :: SavedAt(s, i) {
      forall i ensures (i in a <==> i in b) && (i in b ==> a[i] == b[i]) { assert SavedAt(s, i); }
    }
  }

  /** A task of some life that no lookup after the shutdown can find. */
  ghost predicate ForgottenAtShutdown(tr: seq<State>, acts: seq<Act>, id: Id) {
    Life(tr, acts) && id in View(tr[|acts|]) && id !in ShutdownDb(tr[|acts|])
  }

  /** A task that is nowhere but in memory and in a flush just begun. */
  lemma FirstFlushCancelled(s: State, id: Id)
    requires s.flight.None? && id in s.dirty && id in s.tasks && id !in s.db
    ensures id in View(BeginFlush(s)) && id !in ShutdownDb(BeginFlush(s))
  {
  }

  lemma TwoSteps(s: State, a: Act, b: Act)
    requires s == Boot(s.db) && Enabled(s, a) && Enabled(Step(s, a), b)
    ensures Life([s, Step(s, a), Step(Step(s, a), b)], [a, b])
  {
    var tr, acts := [s, Step(s, a), Step(Step(s, a), b)], [a, b];
    assert StepAt(tr, acts, 0) && StepAt(tr, acts, 1);
  }

  /** It does not always: one task, created and being flushed for the first
      time when the server is stopped, is never stored. */
  lemma ShutdownCanLoseATask()
    ensures exists tr: seq<State>, acts: seq<Act>, id: Id :: ForgottenAtShutdown(tr, acts, id)
  {
    var a := Create("t", "python", "", None, 0.0, 0);
    var s := CreateTask(Boot(map[]), a);
    FirstFlushCancelled(s, "t");
    TwoSteps(Boot(map[]), a, FlushBegin);
    assert ForgottenAtShutdown([Boot(map[]), s, BeginFlush(s)], [a, FlushBegin], "t");
  }
}
