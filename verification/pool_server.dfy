/**
 The pool as the server runs it: fields updated in place, one method for each
 stretch of code between suspension points, each proved to be the step that
 the invariant and the refinement speak of.
 */
module PoolServer {
  import opened Options
  import opened TaskPool

  class Pool {
    var tasks: map<Id, Task>
    var queue: seq<Id>
    var dirty: set<Id>
    var flight: Option<Flight>
    var db: map<Id, Row>
    var recovered: bool
    var completing: multiset<Id>
    var arrived: bool
    var waiting: map<Call, bool>

    function Abs(): State
      reads this
    {
      State(tasks, queue, dirty, flight, db, recovered, completing, arrived, waiting)
    }

    constructor (db: map<Id, Row>)
      ensures Abs() == Boot(db)
    {
      tasks, queue, dirty, flight := map[], [], {}, None;
      this.db := db;
      recovered, completing, arrived, waiting := false, multiset{}, false, map[];
    }

    method Announce()
      modifies this`arrived, this`waiting
      ensures arrived && waiting == Signalled(old(waiting))
    {
      arrived := true;
      waiting := map c | c in waiting :: true;
    }

    method Add(id: Id, row: Row)
      modifies this
      ensures Abs() == Enqueue(old(Abs()), id, row)
    {
      tasks := tasks[id := Task(row, None, None)];
      queue := queue + [id];
      dirty := dirty + {id};
      Announce();
    }

    /** Refused with 503 while too many writes are waiting for the database. */
    method CreateTask(id: Id, kind: string, payload: string, parent: Option<Id>, now: real, otherWrites: nat)
      returns (accepted: bool)
      modifies this
      ensures Abs() == TaskPool.CreateTask(old(Abs()), Create(id, kind, payload, parent, now, otherWrites))
      ensures accepted <==> old(|dirty| + otherWrites) < MAX_PENDING_WRITES
    {
      if |dirty| + otherWrites >= MAX_PENDING_WRITES { return false; }
      Add(id, NewRow(kind, payload, parent, now));
      return true;
    }

    method Retry(id: Id, copy: Id, now: real, dbUp: bool) returns (found: bool)
      modifies this
      ensures Abs() == RetryTask(old(Abs()), TaskPool.Retry(id, copy, now, dbUp))
      ensures found <==> old(Find(Abs(), id, dbUp)).Some?
    {
      var t := Find(Abs(), id, dbUp);
      if t.None? { return false; }
      Add(copy, NewRow(t.value.row.kind, t.value.row.payload, Some(id), now));
      return true;
    }

    /** Pops the queue until an entry is still pending, and leases that one. */
    method Grab(worker: string, token: string, now: real) returns (got: Option<Id>)
      modifies this
      ensures (Abs(), got) == TaskPool.Grab(old(Abs()), worker, token, now)
      ensures forall id :: got == Some(id) <==> PendingIn(old(tasks), id) && !PendingIn(tasks, id)
      ensures got.Some? ==> got.value in tasks && tasks[got.value].lease == Some(token)
    {
      ghost var popped := 0;
      ghost var k := NextPending(tasks, queue);
      while queue != []
        invariant 0 <= popped <= k
        invariant queue == old(queue)[popped..]
        invariant Abs().(queue := old(queue)) == old(Abs())
        decreases |queue|
      {
        var id := queue[0];
        queue := queue[1..];
        if !PendingIn(tasks, id) {
          popped := popped + 1;
          continue;
        }
        tasks := tasks[id := Leased(tasks[id], worker, token, now)];
        dirty := dirty + {id};
        return Some(id);
      }
      return None;
    }

    /** One pass of the long poll; a woken call clears the event first. */
    method LeasePass(call: Call, worker: string, token: string, now: real, expired: bool)
      returns (got: Option<Id>)
      modifies this
      ensures Abs() == Pass(old(Abs()), TaskPool.LeasePass(call, worker, token, now, expired))
      ensures forall id :: got == Some(id) <==> PendingIn(old(tasks), id) && !PendingIn(tasks, id)
      ensures got.Some? ==> got.value in tasks && tasks[got.value].lease == Some(token)
      ensures call in waiting <==> got.None? && !expired
    {
      if call in waiting { arrived := false; }
      got := Grab(worker, token, now);
      if got.Some? || expired {
        waiting := waiting - {call};
      } else {
        waiting := waiting[call := arrived];
      }
    }

    /** The lease check; adopts an unleased running task. */
    method Own(id: Id, token: string) returns (ok: bool)
      modifies this`tasks
      ensures ok <==> Owned(old(Abs()), id, token).Some?
      ensures Abs() == if ok then Owned(old(Abs()), id, token).value else old(Abs())
      ensures ok ==> id in tasks
    {
      if id !in tasks || token == "" { return false; }
      if tasks[id].lease == None && tasks[id].row.status == Running {
        tasks := tasks[id := tasks[id].(lease := Some(token))];
      }
      return tasks[id].lease == Some(token);
    }

    method Heartbeat(id: Id, token: string, now: real) returns (ok: bool, cancel: bool)
      modifies this
      ensures Abs() == Beat(old(Abs()), TaskPool.Heartbeat(id, token, now))
      ensures ok <==> Owned(old(Abs()), id, token).Some?
      ensures cancel <==> ok && old(Abs()).tasks[id].row.cancelRequested
    {
      ok := Own(id, token);
      if !ok { return false, false; }
      tasks := tasks[id := tasks[id].(heartbeat := Some(now))];
      cancel := tasks[id].row.cancelRequested;
    }

    /** A completion up to the point where it waits for its body. */
    method BeginComplete(id: Id, token: string) returns (ok: bool)
      modifies this
      ensures Abs() == TaskPool.BeginComplete(old(Abs()), CompleteBegin(id, token))
      ensures ok <==> Owned(old(Abs()), id, token).Some?
    {
      ok := Own(id, token);
      if ok { completing := completing + multiset{id}; }
    }

    /** The rest of it, which may find the task ended, or even evicted. */
    method EndComplete(id: Id, status: Status, error: Option<string>, now: real) returns (changed: bool)
      modifies this
      ensures Abs() == TaskPool.EndComplete(old(Abs()), CompleteEnd(id, status, error, now))
      ensures changed <==> Reportable(status) && id in old(tasks) && !Finished(old(tasks)[id].row.status)
    {
      completing := completing - multiset{id};
      if !Reportable(status) || id !in tasks || Finished(tasks[id].row.status) { return false; }
      tasks := tasks[id := Ended(tasks[id], status, error, now)];
      dirty := dirty + {id};
      return true;
    }

    method Cancel(id: Id, now: real, dbUp: bool) returns (found: Option<Status>)
      modifies this
      ensures Abs() == CancelTask(old(Abs()), TaskPool.Cancel(id, now, dbUp))
      ensures found == match Find(old(Abs()), id, dbUp)
                       case None => None
                       case Some(t) => Some(if t.row.status == Pending then Cancelled else t.row.status)
    {
      var t := Find(Abs(), id, dbUp);
      if t.None? { return None; }
      var task := t.value;
      if task.row.status == Pending {
        task := task.(row := task.row.(status := Cancelled, finished := Some(now),
                                       error := Some("cancelled before start")));
      } else if task.row.status == Running {
        task := task.(row := task.row.(cancelRequested := true));
      } else {
        return Some(task.row.status);
      }
      tasks := tasks[id := task];
      dirty := dirty + {id};
      return Some(task.row.status);
    }

    /** The reaper's walk over every task. */
    method Reap(now: real)
      modifies this
      ensures Abs() == ReapQuiet(old(Abs()), now)
    {
      ghost var s := Abs();
      ReapingEnds(s, now);
      var todo := tasks.Keys;
      while todo != {}
        invariant todo <= s.tasks.Keys
        invariant Abs() == Reaping(s, todo, now)
        decreases todo
      {
        var id :| id in todo;
        ReapingNext(s, todo, id, now);
        todo := todo - {id};
        if Quiet(tasks[id], now) {
          tasks := tasks[id := Ended(tasks[id], Lost, Some("worker gone"), now)];
          dirty := dirty + {id};
        }
      }
    }

    /** Takes the dirty set and snapshots its rows; false when nothing is dirty. */
    method BeginFlush() returns (begun: bool)
      requires flight.None?
      modifies this
      ensures Abs() == TaskPool.BeginFlush(old(Abs()))
      ensures begun <==> flight.Some?
    {
      if dirty == {} { return false; }
      flight := Some(Flight(dirty, map i | i in dirty && i in tasks :: tasks[i].row, false));
      dirty := {};
      return true;
    }

    /** After the database answered: evicts what is finished and untouched. */
    method EndFlush()
      requires flight.Some?
      modifies this
      ensures Abs() == TaskPool.EndFlush(old(Abs()))
    {
      var ids := flight.value.ids;
      var todo := ids;
      while todo != {}
        invariant todo <= ids
        invariant tasks == map i | i in old(tasks) && !(i in ids - todo && Evictable(old(Abs()), i)) :: old(tasks)[i]
        invariant Abs().(tasks := old(tasks)) == old(Abs())
        decreases todo
      {
        var id :| id in todo;
        todo := todo - {id};
        if id !in dirty && id in tasks && Finished(tasks[id].row.status) {
          tasks := tasks - {id};
        }
      }
      flight := None;
    }

    method FailFlush()
      requires flight.Some?
      modifies this
      ensures Abs() == TaskPool.FailFlush(old(Abs()))
    {
      dirty := dirty + flight.value.ids;
      flight := None;
    }

    /** One row found in the database: a pending one goes to the queue. */
    method Load(id: Id, now: real)
      requires id in db
      modifies this`tasks, this`queue
      ensures (tasks, queue) == OneMore(db[id], old(tasks), old(queue), id, now)
    {
      if id in tasks { return; }
      tasks := tasks[id := Revived(db[id], now)];
      if db[id].status != Running { queue := queue + [id]; }
    }

    /** Loads the unfinished rows that memory does not know yet. */
    method Recover(found: seq<Id>, now: real)
      requires AnswersUnfinished(db, found)
      modifies this
      ensures Abs() == RecoverTasks(old(Abs()), found, now)
    {
      LoadAll(found, now);
      recovered := true;
      if queue != [] { Announce(); }
    }

    method LoadAll(found: seq<Id>, now: real)
      requires Loadable(db, found)
      modifies this`tasks, this`queue
      ensures Abs() == Recovering(old(Abs()), found, now)
    {
      ghost var s := Abs();
      ReachedEnds(s, found, now);
      for n := 0 to |found|
        invariant Reached(s, found, n, now, tasks, queue)
      {
        RecoveringNext(s, found, n, now, tasks, queue);
        Load(found[n], now);
      }
    }
  }

  /** The reaper part of the way: `todo` is what it has not looked at yet. */
  ghost function Reaping(s: State, todo: set<Id>, now: real): State {
    s.(tasks := map i | i in s.tasks ::
         if i !in todo && Quiet(s.tasks[i], now) then Ended(s.tasks[i], Lost, Some("worker gone"), now)
         else s.tasks[i],
       dirty := s.dirty + (set i | i in s.tasks && i !in todo && Quiet(s.tasks[i], now)))
  }

  lemma ReapingNext(s: State, todo: set<Id>, id: Id, now: real)
    requires id in todo && todo <= s.tasks.Keys
    ensures var r, n := Reaping(s, todo, now), Reaping(s, todo - {id}, now);
            && r.tasks[id] == s.tasks[id]
            && if Quiet(s.tasks[id], now)
               then n == r.(tasks := r.tasks[id := Ended(s.tasks[id], Lost, Some("worker gone"), now)],
                            dirty := r.dirty + {id})
               else n == r
  {
    var r, n := Reaping(s, todo, now), Reaping(s, todo - {id}, now);
    assert n.dirty == r.dirty + if Quiet(s.tasks[id], now) then {id} else {};
  }

  lemma ReapingEnds(s: State, now: real)
    ensures Reaping(s, s.tasks.Keys, now) == s
    ensures Reaping(s, {}, now) == ReapQuiet(s, now)
  {
    var none := Reaping(s, s.tasks.Keys, now);
    assert none.tasks == s.tasks && none.dirty == s.dirty;
    assert Reaping(s, {}, now).dirty == ReapQuiet(s, now).dirty;
  }

  /** Recovery part of the way through the database's answer. */
  ghost function Recovering(s: State, found: seq<Id>, now: real): State {
    s.(tasks := Loaded(s, found, now), queue := s.queue + Requeued(s, found))
  }

  lemma LoadedNext(s: State, found: seq<Id>, id: Id, now: real)
    requires id in s.db
    ensures Loaded(s, found + [id], now) ==
            if id in s.tasks then Loaded(s, found, now) else Loaded(s, found, now)[id := Revived(s.db[id], now)]
  {
    assert forall i :: i in found + [id] <==> i in found || i == id;
  }

  /** Memory and queue once a stored row is known too. */
  ghost function OneMore(row: Row, tasks: map<Id, Task>, queue: seq<Id>, id: Id, now: real): (map<Id, Task>, seq<Id>) {
    if id in tasks then (tasks, queue)
    else (tasks[id := Revived(row, now)], if row.status != Running then queue + [id] else queue)
  }

  ghost predicate Loadable(db: map<Id, Row>, found: seq<Id>) {
    Distinct(found) && forall i :: 0 <= i < |found| ==> Unfinished(db, found[i])
  }

  ghost predicate Reached(s: State, found: seq<Id>, n: nat, now: real, tasks: map<Id, Task>, queue: seq<Id>) {
    n <= |found| && tasks == Recovering(s, found[..n], now).tasks && queue == Recovering(s, found[..n], now).queue
  }

  lemma ReachedEnds(s: State, found: seq<Id>, now: real)
    ensures Reached(s, found, 0, now, s.tasks, s.queue)
    ensures forall tasks, queue :: Reached(s, found, |found|, now, tasks, queue) ==>
                                     s.(tasks := tasks, queue := queue) == Recovering(s, found, now)
  {
    assert Loaded(s, [], now) == s.tasks;
    assert found[..|found|] == found;
  }

  lemma RecoveringNext(s: State, found: seq<Id>, n: nat, now: real, tasks: map<Id, Task>, queue: seq<Id>)
    requires Reached(s, found, n, now, tasks, queue) && n < |found| && Loadable(s.db, found)
    ensures found[n] in s.db
    ensures var more := OneMore(s.db[found[n]], tasks, queue, found[n], now);
            Reached(s, found, n + 1, now, more.0, more.1)
  {
    var id := found[n];
    assert found[..n + 1] == found[..n] + [id] && id !in found[..n];
    assert Unfinished(s.db, id);
    LoadedNext(s, found[..n], id, now);
    assert id in tasks <==> id in s.tasks;
    QueueNext(s, found[..n], id, queue);
  }

  lemma QueueNext(s: State, before: seq<Id>, id: Id, queue: seq<Id>)
    requires queue == s.queue + Requeued(s, before) && Unfinished(s.db, id)
    ensures s.queue + Requeued(s, before + [id]) ==
            if id !in s.tasks && s.db[id].status != Running then queue + [id] else queue
  {
    RequeuedNext(s, before, id);
  }

  lemma {:induction false} RequeuedNext(s: State, found: seq<Id>, id: Id)
    ensures Requeued(s, found + [id]) ==
            Requeued(s, found) + if id !in s.tasks && id in s.db && s.db[id].status == Pending then [id] else []
  {
    if found == [] {
      assert found + [id] == [id] && [id][1..] == [];
    } else {
      assert (found + [id])[1..] == found[1..] + [id];
      RequeuedNext(s, found[1..], id);
    }
  }
}
