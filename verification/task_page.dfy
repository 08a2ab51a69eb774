/** The page of tasks, newest first: memory rows and a page of the database,
    laid over each other, sorted and cut. */
module TaskPage {
  import opened Options
  import opened TaskPool
  import TaskHistory
  import Sorting

  datatype Listed = Listed(id: Id, row: Row)

  const AGE: Listed -> real := (l: Listed) => l.row.created
  const NAME: Listed -> Id := (l: Listed) => l.id

  ghost predicate FromMap(s: seq<Listed>, m: map<Id, Row>) {
    Sorting.Distinct(s, NAME) && forall i :: 0 <= i < |s| ==> s[i].id in m && m[s[i].id] == s[i].row
  }

  /** Some enumeration of the whole map. */
  ghost predicate Lists(s: seq<Listed>, m: map<Id, Row>) {
    FromMap(s, m) && forall id :: id in m ==> Listed(id, m[id]) in s
  }

  /** A page of the newest: `limit` rows, or all when there are fewer, and no
      row left out is newer than one that is in. */
  ghost predicate Newest(p: seq<Listed>, m: map<Id, Row>, limit: nat) {
    && FromMap(p, m) && Sorting.Descending(p, AGE) && |p| <= limit
    && (|p| < limit ==> forall id :: id in m ==> Listed(id, m[id]) in p)
    && (forall id, k :: 0 <= k < |p| && id in m && Listed(id, m[id]) !in p ==> p[k].row.created >= m[id].created)
  }

  function Without(page: seq<Listed>, seen: set<Id>): seq<Listed> {
    if page == [] then []
    else if page[0].id in seen then Without(page[1..], seen)
    else [page[0]] + Without(page[1..], seen)
  }

  function Front(rows: seq<Listed>, limit: nat): seq<Listed> {
    rows[..if |rows| < limit then |rows| else limit]
  }

  /** The handler: `stored` is None when the database does not answer. */
  function Page(live: seq<Listed>, stored: Option<seq<Listed>>, limit: nat): seq<Listed> {
    var fromDb := if stored.None? then [] else stored.value;
    var rows := Sorting.Sort(live + Without(fromDb, Sorting.Names(live, NAME)), AGE);
    Front(rows, limit)
  }

  lemma {:induction false} WithoutHas(page: seq<Listed>, seen: set<Id>, l: Listed)
    ensures l in Without(page, seen) <==> l in page && l.id !in seen
  {
    if page != [] {
      WithoutHas(page[1..], seen, l);
      assert l in page <==> l == page[0] || l in page[1..];
    }
  }

  lemma {:induction false} WithoutDistinct(page: seq<Listed>, seen: set<Id>)
    requires Sorting.Distinct(page, NAME)
    ensures Sorting.Distinct(Without(page, seen), NAME)
  {
    if page != [] {
      var rest := Without(page[1..], seen);
      WithoutDistinct(page[1..], seen);
      forall i | 0 <= i < |rest| ensures NAME(rest[i]) != NAME(page[0]) {
        WithoutHas(page[1..], seen, rest[i]);
        var k :| 0 <= k < |page[1..]| && page[1..][k] == rest[i];
        assert page[k + 1] == rest[i];
      }
    }
  }

  predicate SameAge(mem: map<Id, Row>, db: map<Id, Row>) {
    forall id :: id in mem && id in db ==> mem[id].created == db[id].created
  }

  /** All rows the handler sorts, one for each id in memory or on the page. */
  lemma Combined(live: seq<Listed>, mem: map<Id, Row>, page: seq<Listed>, db: map<Id, Row>)
    requires Lists(live, mem) && FromMap(page, db)
    ensures var all := live + Without(page, Sorting.Names(live, NAME));
            && FromMap(all, db + mem)
            && forall l :: l in live || (l in page && l.id !in mem) ==> l in all
  {
    var seen := Sorting.Names(live, NAME);
    var stored := Without(page, seen);
    var all := live + stored;
    forall id ensures id in seen <==> id in mem {
      if id in mem { assert NAME(Listed(id, mem[id])) == id; }
    }
    forall l ensures l in stored <==> l in page && l.id !in mem {
      WithoutHas(page, seen, l);
    }
    WithoutDistinct(page, seen);
    forall i | 0 <= i < |stored|
      ensures stored[i].id in db && stored[i].id !in mem && db[stored[i].id] == stored[i].row
    {
      assert stored[i] in stored;
    }
    forall i, j | 0 <= i < j < |all| ensures NAME(all[i]) != NAME(all[j]) {
      if i < |live| <= j { assert all[i] == live[i] && all[j] == stored[j - |live|]; }
    }
  }

  lemma SortedFrom(all: seq<Listed>, m: map<Id, Row>)
    requires FromMap(all, m)
    ensures var rows := Sorting.Sort(all, AGE);
            FromMap(rows, m) && Sorting.Descending(rows, AGE) && |rows| == |all|
            && forall l :: l in rows <==> l in all
  {
    var rows := Sorting.Sort(all, AGE);
    Sorting.Sorted(all, AGE);
    Sorting.SortDistinct(all, AGE, NAME);
    forall l ensures l in rows <==> l in all { Sorting.SortHas(all, AGE, l); }
    forall i | 0 <= i < |rows| ensures rows[i].id in m && m[rows[i].id] == rows[i].row {
      assert rows[i] in rows;
    }
  }

  /** Among sorted rows that name all of a set of `n` ids no older than `c`, none
      of the first `n` is older. */
  lemma FrontIsNew(rows: seq<Listed>, ids: set<Id>, c: real, k: nat)
    requires Sorting.Descending(rows, AGE) && k < |rows| && k < |ids|
    requires forall id :: id in ids ==> exists i :: 0 <= i < |rows| && rows[i].id == id && rows[i].row.created >= c
    ensures rows[k].row.created >= c
  {
    var front := Sorting.Names(rows[..k], NAME);
    Sorting.NamesSize(rows[..k], NAME);
    assert exists id :: id in ids && id !in front by {
      if ids <= front { Sub(ids, front); }
    }
    var id :| id in ids && id !in front;
    var i :| 0 <= i < |rows| && rows[i].id == id && rows[i].row.created >= c;
    forall j | 0 <= j < k ensures NAME(rows[j]) in front { assert NAME(rows[..k][j]) in front; }
    if k < i { assert AGE(rows[k]) >= AGE(rows[i]); }
  }

  lemma Sub<T>(a: set<T>, b: set<T>)
    requires a <= b
    ensures |a| <= |b|
  {
    assert b == a + (b - a);
  }

  predicate SameIdAndAge(a: Listed, b: Listed) {
    a.id == b.id && a.row.created == b.row.created
  }

  /** No fewer rows than the page are sorted, and they cover its ages. */
  lemma Covers(all: seq<Listed>, live: seq<Listed>, mem: map<Id, Row>, page: seq<Listed>, db: map<Id, Row>)
    requires Lists(live, mem) && FromMap(page, db) && SameAge(mem, db)
    requires forall l :: l in live || (l in page && l.id !in mem) ==> l in all
    ensures forall i :: 0 <= i < |page| ==>
                          exists k :: 0 <= k < |all| && SameIdAndAge(all[k], page[i])
    ensures |all| >= |page|
  {
    forall i | 0 <= i < |page|
      ensures exists k :: 0 <= k < |all| && SameIdAndAge(all[k], page[i])
    {
      var id := page[i].id;
      var l := if id in mem then Listed(id, mem[id]) else page[i];
      assert l in all;
    }
    Sorting.NamesSize(page, NAME);
    Sorting.NamesSize(all, NAME);
    forall id | id in Sorting.Names(page, NAME) ensures id in Sorting.Names(all, NAME) {
      var i :| 0 <= i < |page| && NAME(page[i]) == id;
      var k :| 0 <= k < |all| && all[k].id == page[i].id;
      assert NAME(all[k]) == id;
    }
    Sub(Sorting.Names(page, NAME), Sorting.Names(all, NAME));
  }

  /** A row left out of the page is no newer than any row in it. */
  lemma LeftOutIsOlder(rows: seq<Listed>, live: seq<Listed>, mem: map<Id, Row>,
                       page: seq<Listed>, db: map<Id, Row>, limit: nat, id: Id, k: nat)
    requires Lists(live, mem) && Newest(page, db, limit) && SameAge(mem, db)
    requires FromMap(rows, db + mem) && Sorting.Descending(rows, AGE)
    requires forall l :: l in live || (l in page && l.id !in mem) ==> l in rows
    requires k < limit && k < |rows|
    requires id in db + mem && Listed(id, (db + mem)[id]) !in Front(rows, limit)
    ensures rows[k].row.created >= (db + mem)[id].created
  {
    var l := Listed(id, (db + mem)[id]);
    if l in rows {
      var i :| 0 <= i < |rows| && rows[i] == l;
      var cut := if |rows| < limit then |rows| else limit;
      forall j | 0 <= j < cut ensures rows[j] in rows[..cut] { assert rows[..cut][j] == rows[j]; }
      assert AGE(rows[k]) >= AGE(rows[i]);
    } else {
      assert id !in mem && l !in page && |page| == limit;
      Covers(rows, live, mem, page, db);
      Sorting.NamesSize(page, NAME);
      forall p | p in Sorting.Names(page, NAME)
        ensures exists i :: 0 <= i < |rows| && rows[i].id == p && rows[i].row.created >= l.row.created
      {
        var i :| 0 <= i < |page| && NAME(page[i]) == p;
        assert page[i].row.created >= l.row.created;
      }
      FrontIsNew(rows, Sorting.Names(page, NAME), l.row.created, k);
    }
  }

  /** The front of sorted candidates is a newest page. */
  lemma FrontIsNewest(rows: seq<Listed>, live: seq<Listed>, mem: map<Id, Row>,
                      page: seq<Listed>, db: map<Id, Row>, limit: nat)
    requires Lists(live, mem) && Newest(page, db, limit) && SameAge(mem, db)
    requires FromMap(rows, db + mem) && Sorting.Descending(rows, AGE)
    requires forall l :: l in live || (l in page && l.id !in mem) ==> l in rows
    ensures Newest(Front(rows, limit), db + mem, limit)
  {
    var cut := if |rows| < limit then |rows| else limit;
    forall id, k | 0 <= k < cut && id in db + mem && Listed(id, (db + mem)[id]) !in rows[..cut]
      ensures rows[..cut][k].row.created >= (db + mem)[id].created
    {
      LeftOutIsOlder(rows, live, mem, page, db, limit, id, k);
    }
    Covers(rows, live, mem, page, db);
  }

  /** For every memory, database and limit, the handler's answer is a page of
      the newest rows of memory laid over the database, and of memory alone
      when the database does not answer. */
  lemma PageOverOverlay(live: seq<Listed>, mem: map<Id, Row>, page: seq<Listed>, db: map<Id, Row>, limit: nat)
    requires Lists(live, mem) && Newest(page, db, limit) && SameAge(mem, db)
    ensures Newest(Page(live, Some(page), limit), db + mem, limit)
  {
    var all := live + Without(page, Sorting.Names(live, NAME));
    Combined(live, mem, page, db);
    SortedFrom(all, db + mem);
    FrontIsNewest(Sorting.Sort(all, AGE), live, mem, page, db, limit);
  }

  lemma PageOfMemory(live: seq<Listed>, mem: map<Id, Row>, limit: nat)
    requires Lists(live, mem)
    ensures Newest(Page(live, None, limit), mem, limit)
  {
    assert Newest([], map[], limit);
    PageOverOverlay(live, mem, [], map[], limit);
    assert map[] + mem == mem;
  }

  /** The memory rows as the answer shows them: which ones is settled when memory
      is read, what they say when the database has answered, for the handler
      keeps the tasks themselves, evicted or not. */
  function Shown(was: State, now: State): map<Id, Row> {
    map id | id in was.tasks && id in View(now) :: View(now)[id]
  }

  predicate AsLookedUp(was: State, now: State, id: Id, row: Row)
    requires id in View(now)
  {
    row == View(now)[id] || (id !in was.tasks && id in now.tasks && id in now.db && row == now.db[id])
  }

  /** No task that memory held is missing from what is shown of it. */
  lemma ShownIsWhole(tr: seq<State>, acts: seq<Act>, m: nat, n: nat)
    requires TaskHistory.Life(tr, acts) && m <= n <= |acts|
    ensures Shown(tr[m], tr[n]).Keys == tr[m].tasks.Keys
  {
    forall id | id in tr[m].tasks ensures id in View(tr[n]) {
      TaskHistory.RowsMoveOnward(tr, acts, m, n, id);
    }
  }

  lemma ShownAges(tr: seq<State>, acts: seq<Act>, m: nat, n: nat)
    requires TaskHistory.Life(tr, acts) && m <= n <= |acts|
    ensures SameAge(Shown(tr[m], tr[n]), tr[n].db)
  {
    TaskHistory.LifeRefines(tr, acts, n);
    forall id | id in Shown(tr[m], tr[n]) && id in tr[n].db
      ensures Shown(tr[m], tr[n])[id].created == tr[n].db[id].created
    {
      assert InvAt(tr[n], id);
    }
  }

  /** Along a server's life memory is read at m and the database at n, with any
      steps between. What is answered is a newest page of memory's tasks over the
      database; with nothing between, of what look-ups of all ids show. */
  lemma ListedInLife(tr: seq<State>, acts: seq<Act>, m: nat, n: nat,
                     live: seq<Listed>, page: seq<Listed>, limit: nat)
    requires TaskHistory.Life(tr, acts) && m <= n <= |acts|
    requires Lists(live, Shown(tr[m], tr[n])) && Newest(page, tr[n].db, limit)
    ensures Newest(Page(live, Some(page), limit), tr[n].db + Shown(tr[m], tr[n]), limit)
    ensures m == n ==> Newest(Page(live, Some(page), limit), View(tr[n]), limit)
  {
    ShownAges(tr, acts, m, n);
    PageOverOverlay(live, Shown(tr[m], tr[n]), page, tr[n].db, limit);
    if m == n { assert tr[n].db + Shown(tr[m], tr[n]) == View(tr[n]); }
  }

  /** And every row in it is what a look-up of its id shows at n, unless the
      task came into memory in between and is shown as it is stored. */
  lemma ListedAsLookedUp(tr: seq<State>, acts: seq<Act>, m: nat, n: nat,
                         live: seq<Listed>, page: seq<Listed>, limit: nat, l: Listed)
    requires TaskHistory.Life(tr, acts) && m <= n <= |acts|
    requires Lists(live, Shown(tr[m], tr[n])) && Newest(page, tr[n].db, limit)
    requires l in Page(live, Some(page), limit)
    ensures l.id in View(tr[n]) && AsLookedUp(tr[m], tr[n], l.id, l.row)
  {
    ListedInLife(tr, acts, m, n, live, page, limit);
  }

  /** Where the ages of shadowed rows differ, rows can be missing: the database
      page is spent on a row that memory shows as an older one. */
  lemma AgesMustAgree(row: Row)
    requires row.created == 5.0
    ensures var (mem, db) := (map["a" := row.(created := 1.0)], map["a" := row, "b" := row.(created := 2.0)]);
            var (live, page) := ([Listed("a", mem["a"])], [Listed("a", db["a"])]);
            && Lists(live, mem) && Newest(page, db, 1)
            && !Newest(Page(live, Some(page), 1), db + mem, 1)
  {
    var mem, db := map["a" := row.(created := 1.0)], map["a" := row, "b" := row.(created := 2.0)];
    var live, page := [Listed("a", mem["a"])], [Listed("a", db["a"])];
    assert Listed("a", db["a"]) == page[0];
    var seen := Sorting.Names(live, NAME);
    assert NAME(live[0]) in seen;
    assert Without(page, seen) == [];
    assert live + [] == live;
    assert Sorting.Sort(live, AGE) == live;
    var p := Page(live, Some(page), 1);
    assert p == live;
    assert p[0].row.created < (db + mem)["b"].created && Listed("b", (db + mem)["b"]) !in p;
  }
}
