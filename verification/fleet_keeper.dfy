/**
 The fleet keeper: once a tick it reads the workflow runs of a repository,
 cancels those that are expired or too many, within two budgets, and launches
 what is missing. One tick reads the clock once.
 */
module FleetKeeper {
  import opened Options
  import opened Numbers
  import Sorting

  const GRACE: real := 30.0
  const BOOT_GRACE: real := 2400.0
  const RETIRE_BUDGET: nat := 1
  const IDLE_BUDGET: nat := 25
  const MAX_LAUNCH: nat := 5

  datatype WorkflowRun = WorkflowRun(id: int, busy: bool, created: real)

  const NAME: WorkflowRun -> int := (r: WorkflowRun) => r.id
  const BORN: WorkflowRun -> real := (r: WorkflowRun) => r.created

  /** What a tick sees: the unfinished runs, how long each worker the pool knows
      has been serving (None when the pool does not tell), and the time. */
  datatype Sight = Sight(runs: seq<WorkflowRun>, workers: Option<map<int, real>>, now: real)

  datatype Kind = Started | Pending | Expired

  function KindOf(r: WorkflowRun, s: Sight, ttl: real): Kind {
    var age := s.now - r.created;
    if !r.busy then if age > ttl then Expired else Pending
    else match s.workers
      case None => Started
      case Some(w) =>
        if r.id in w then if w[r.id] > ttl then Expired else Started
        else if age > BOOT_GRACE then Expired
        else Started
  }

  /** A run that is to end however few there are: an idle one past its time to
      live; a busy one the pool knows to have served longer than that; or a busy
      one the pool answers without knowing it, long after it was launched. */
  predicate PastTime(r: WorkflowRun, s: Sight, ttl: real) {
    if r.busy then
      && s.workers.Some?
      && (r.id in s.workers.value ==> s.workers.value[r.id] > ttl)
      && (r.id !in s.workers.value ==> s.now - r.created > BOOT_GRACE)
    else s.now - r.created > ttl
  }

  /** How many runs are not past their time. */
  function Staying(runs: seq<WorkflowRun>, s: Sight, ttl: real): nat {
    if runs == [] then 0
    else Staying(runs[..|runs| - 1], s, ttl) + if PastTime(runs[|runs| - 1], s, ttl) then 0 else 1
  }

  /** The listed runs of one kind, in the order of the listing. */
  function Of(kind: Kind, runs: seq<WorkflowRun>, s: Sight, ttl: real): seq<WorkflowRun> {
    if runs == [] then []
    else Of(kind, runs[..|runs| - 1], s, ttl) +
         if KindOf(runs[|runs| - 1], s, ttl) == kind then [runs[|runs| - 1]] else []
  }

  function Busy(runs: seq<WorkflowRun>, busy: bool): seq<WorkflowRun> {
    if runs == [] then []
    else Busy(runs[..|runs| - 1], busy) +
         if runs[|runs| - 1].busy == busy then [runs[|runs| - 1]] else []
  }

  function Take(s: seq<WorkflowRun>, n: int): seq<WorkflowRun> {
    s[..Min(Max(0, n), |s|)]
  }

  function Surplus(started: seq<WorkflowRun>, pending: seq<WorkflowRun>, jobs: int): seq<WorkflowRun> {
    var over := Max(0, |started| + |pending| - jobs);
    Take(pending, over) + Take(started, over - |pending|)
  }

  /** What is to be retired: the expired runs and the surplus. */
  function Unordered(s: Sight, jobs: int, ttl: real): seq<WorkflowRun> {
    Of(Expired, s.runs, s, ttl) + Surplus(Of(Started, s.runs, s, ttl), Of(Pending, s.runs, s, ttl), jobs)
  }

  /** The same with idle runs first; the order is otherwise kept. */
  function Victims(s: Sight, jobs: int, ttl: real): seq<WorkflowRun> {
    var all := Unordered(s, jobs, ttl);
    Busy(all, false) + Busy(all, true)
  }

  /** The victims no cancel was sent for yet. */
  function Due(victims: seq<WorkflowRun>, stopping: set<int>): seq<WorkflowRun> {
    if victims == [] then []
    else Due(victims[..|victims| - 1], stopping) +
         if victims[|victims| - 1].id in stopping then [] else [victims[|victims| - 1]]
  }

  /** How many of `idle` idle and `busy` busy victims one tick may stop. */
  function Quota(idle: nat, busy: nat): nat {
    if idle > IDLE_BUDGET then IDLE_BUDGET else idle + Min(busy, RETIRE_BUDGET)
  }

  function Ids(runs: seq<WorkflowRun>): set<int> {
    Sorting.Names(runs, NAME)
  }

  function Picked(due: seq<WorkflowRun>): seq<WorkflowRun> {
    due[..Min(Quota(|Busy(due, false)|, |Busy(due, true)|), |due|)]
  }

  /** The runs a tick sends a cancel for when every request gets through. */
  function Chosen(s: Sight, jobs: int, ttl: real, stopping: set<int>): seq<WorkflowRun> {
    Picked(Due(Victims(s, jobs, ttl), stopping))
  }

  function Recent(recent: seq<real>, now: real): seq<real> {
    if recent == [] then []
    else Recent(recent[..|recent| - 1], now) +
         if now - recent[|recent| - 1] < GRACE then [recent[|recent| - 1]] else []
  }

  function Launch(started: nat, pending: nat, recent: nat, jobs: int): nat {
    Min(Max(0, jobs - (Min(started + pending, jobs) + recent)), MAX_LAUNCH)
  }

  // What the lists of a tick hold.

  lemma {:induction false} OfHas(kind: Kind, runs: seq<WorkflowRun>, s: Sight, ttl: real, r: WorkflowRun)
    ensures r in Of(kind, runs, s, ttl) <==> r in runs && KindOf(r, s, ttl) == kind
  {
    if runs != [] {
      OfHas(kind, runs[..|runs| - 1], s, ttl, r);
      assert r in runs <==> r in runs[..|runs| - 1] || r == runs[|runs| - 1];
    }
  }

  /** The kinds in the fields of a run: expired is what is past its time, and the
      others are told apart by whether they are in progress. */
  lemma KindsTell(s: Sight, ttl: real, r: WorkflowRun)
    ensures r in Of(Expired, s.runs, s, ttl) <==> r in s.runs && PastTime(r, s, ttl)
    ensures r in Of(Started, s.runs, s, ttl) <==> r in s.runs && !PastTime(r, s, ttl) && r.busy
    ensures r in Of(Pending, s.runs, s, ttl) <==> r in s.runs && !PastTime(r, s, ttl) && !r.busy
  {
    OfHas(Expired, s.runs, s, ttl, r);
    OfHas(Started, s.runs, s, ttl, r);
    OfHas(Pending, s.runs, s, ttl, r);
  }

  lemma {:induction false} BusyHas(runs: seq<WorkflowRun>, busy: bool, r: WorkflowRun)
    ensures r in Busy(runs, busy) <==> r in runs && r.busy == busy
  {
    if runs != [] {
      BusyHas(runs[..|runs| - 1], busy, r);
      assert r in runs <==> r in runs[..|runs| - 1] || r == runs[|runs| - 1];
    }
  }

  lemma {:induction false} DueHas(victims: seq<WorkflowRun>, stopping: set<int>, r: WorkflowRun)
    ensures r in Due(victims, stopping) <==> r in victims && r.id !in stopping
  {
    if victims != [] {
      DueHas(victims[..|victims| - 1], stopping, r);
      assert r in victims <==> r in victims[..|victims| - 1] || r == victims[|victims| - 1];
    }
  }

  lemma IdIn(runs: seq<WorkflowRun>, r: WorkflowRun)
    requires r in runs
    ensures r.id in Ids(runs)
  {
    var i :| 0 <= i < |runs| && runs[i] == r;
    assert NAME(runs[i]) == r.id;
  }

  /** Runs taken from different places are different runs. */
  lemma DistinctJoin(a: seq<WorkflowRun>, b: seq<WorkflowRun>)
    requires Sorting.Distinct(a, NAME) && Sorting.Distinct(b, NAME) && Ids(a) !! Ids(b)
    ensures Sorting.Distinct(a + b, NAME)
  {
    var all := a + b;
    forall i, j | 0 <= i < j < |all| ensures NAME(all[i]) != NAME(all[j]) {
      if i < |a| <= j {
        IdIn(a, a[i]);
        IdIn(b, b[j - |a|]);
      }
    }
  }

  lemma {:induction false} DistinctOf(kind: Kind, runs: seq<WorkflowRun>, s: Sight, ttl: real)
    requires Sorting.Distinct(runs, NAME)
    ensures Sorting.Distinct(Of(kind, runs, s, ttl), NAME)
  {
    if runs != [] {
      var rest := Of(kind, runs[..|runs| - 1], s, ttl);
      DistinctOf(kind, runs[..|runs| - 1], s, ttl);
      forall i | 0 <= i < |rest| ensures NAME(rest[i]) != NAME(runs[|runs| - 1]) {
        OfHas(kind, runs[..|runs| - 1], s, ttl, rest[i]);
      }
    }
  }

  lemma {:induction false} DistinctBusy(runs: seq<WorkflowRun>, busy: bool)
    requires Sorting.Distinct(runs, NAME)
    ensures Sorting.Distinct(Busy(runs, busy), NAME)
  {
    if runs != [] {
      var rest := Busy(runs[..|runs| - 1], busy);
      DistinctBusy(runs[..|runs| - 1], busy);
      forall i | 0 <= i < |rest| ensures NAME(rest[i]) != NAME(runs[|runs| - 1]) {
        BusyHas(runs[..|runs| - 1], busy, rest[i]);
      }
    }
  }

  ghost predicate Within(a: seq<WorkflowRun>, runs: seq<WorkflowRun>, s: Sight, ttl: real, kind: Kind) {
    forall i :: 0 <= i < |a| ==> a[i] in runs && KindOf(a[i], s, ttl) == kind
  }

  lemma OfWithin(s: Sight, ttl: real, kind: Kind, n: int)
    requires Sorting.Distinct(s.runs, NAME)
    ensures var a := Take(Of(kind, s.runs, s, ttl), n);
            Within(a, s.runs, s, ttl, kind) && Sorting.Distinct(a, NAME)
  {
    var of := Of(kind, s.runs, s, ttl);
    DistinctOf(kind, s.runs, s, ttl);
    forall i | 0 <= i < |of| ensures of[i] in s.runs && KindOf(of[i], s, ttl) == kind {
      OfHas(kind, s.runs, s, ttl, of[i]);
    }
  }

  lemma DistinctUnordered(s: Sight, jobs: int, ttl: real)
    requires Sorting.Distinct(s.runs, NAME)
    ensures Sorting.Distinct(Unordered(s, jobs, ttl), NAME)
    ensures forall r :: r in Unordered(s, jobs, ttl) ==> r in s.runs
  {
    var started, pending := Of(Started, s.runs, s, ttl), Of(Pending, s.runs, s, ttl);
    var expired := Of(Expired, s.runs, s, ttl);
    var over := Max(0, |started| + |pending| - jobs);
    var p, q := Take(pending, over), Take(started, over - |pending|);
    OfWithin(s, ttl, Expired, |expired|);
    assert Take(expired, |expired|) == expired;
    OfWithin(s, ttl, Pending, over);
    OfWithin(s, ttl, Started, over - |pending|);
    DistinctJoin(p, q);
    DistinctJoin(expired, p + q);
  }

  ghost predicate IdleFirst(s: seq<WorkflowRun>) {
    forall i, j :: 0 <= i < j < |s| && s[i].busy ==> s[j].busy
  }

  lemma TwoRuns(runs: seq<WorkflowRun>, r: WorkflowRun, q: WorkflowRun)
    requires Sorting.Distinct(runs, NAME) && r in runs && q in runs && r != q
    ensures NAME(r) != NAME(q)
  {
    var x :| 0 <= x < |runs| && runs[x] == r;
    var y :| 0 <= y < |runs| && runs[y] == q;
    if x < y {
      assert NAME(runs[x]) != NAME(runs[y]);
    } else {
      assert NAME(runs[y]) != NAME(runs[x]);
    }
  }

  /** Every victim is one of the listed runs, none twice, idle ones first. */
  lemma VictimsInOrder(s: Sight, jobs: int, ttl: real)
    requires Sorting.Distinct(s.runs, NAME)
    ensures Sorting.Distinct(Victims(s, jobs, ttl), NAME) && IdleFirst(Victims(s, jobs, ttl))
    ensures forall r :: r in Victims(s, jobs, ttl) <==> r in Unordered(s, jobs, ttl)
    ensures forall r :: r in Victims(s, jobs, ttl) ==> r in s.runs
  {
    var all := Unordered(s, jobs, ttl);
    var idle, busy := Busy(all, false), Busy(all, true);
    DistinctUnordered(s, jobs, ttl);
    DistinctBusy(all, false);
    DistinctBusy(all, true);
    forall r ensures (r in idle <==> r in all && !r.busy) && (r in busy <==> r in all && r.busy) {
      BusyHas(all, false, r);
      BusyHas(all, true, r);
    }
    forall i, j | 0 <= i < |idle| && 0 <= j < |busy| ensures NAME(idle[i]) != NAME(busy[j]) {
      assert idle[i] in idle && busy[j] in busy;
      TwoRuns(all, idle[i], busy[j]);
    }
    DistinctJoin(idle, busy);
    forall i | 0 <= i < |idle| ensures !idle[i].busy { assert idle[i] in idle; }
    forall i | 0 <= i < |busy| ensures busy[i].busy { assert busy[i] in busy; }
  }

  // Surplus.

  /** The surplus is exactly what is over (or everything, should `jobs` be
      negative), and no started run is surplus while a pending one is not. */
  lemma SurplusExact(started: seq<WorkflowRun>, pending: seq<WorkflowRun>, jobs: int)
    ensures var surplus := Surplus(started, pending, jobs);
            && |surplus| == Min(Max(0, |started| + |pending| - jobs), |started| + |pending|)
            && (|surplus| > |pending| ==> surplus[..|pending|] == pending)
            && (|surplus| <= |pending| ==> surplus == pending[..|surplus|])
  {}

  lemma {:induction false} BusySplits(runs: seq<WorkflowRun>)
    ensures |Busy(runs, false)| + |Busy(runs, true)| == |runs|
  {
    if runs != [] { BusySplits(runs[..|runs| - 1]); }
  }

  lemma {:induction false} StayingCounts(runs: seq<WorkflowRun>, s: Sight, ttl: real)
    ensures |Of(Started, runs, s, ttl)| + |Of(Pending, runs, s, ttl)| == Staying(runs, s, ttl)
    ensures |Of(Expired, runs, s, ttl)| == |runs| - Staying(runs, s, ttl)
  {
    if runs != [] { StayingCounts(runs[..|runs| - 1], s, ttl); }
  }

  lemma VictimIf(s: Sight, jobs: int, ttl: real, r: WorkflowRun)
    requires Sorting.Distinct(s.runs, NAME)
    ensures r in s.runs && PastTime(r, s, ttl) ==> r in Victims(s, jobs, ttl)
    ensures Staying(s.runs, s, ttl) <= jobs && r in Victims(s, jobs, ttl) ==> r in s.runs && PastTime(r, s, ttl)
  {
    VictimsInOrder(s, jobs, ttl);
    OfHas(Expired, s.runs, s, ttl, r);
    StayingCounts(s.runs, s, ttl);
  }

  /** If a run in progress has to go although it is not past its time, then so
      does every idle one. */
  lemma IdleGoFirst(s: Sight, jobs: int, ttl: real, r: WorkflowRun, q: WorkflowRun)
    requires Sorting.Distinct(s.runs, NAME)
    requires r in Victims(s, jobs, ttl) && r.busy && !PastTime(r, s, ttl) && q in s.runs && !q.busy
    ensures q in Victims(s, jobs, ttl)
  {
    var started, pending := Of(Started, s.runs, s, ttl), Of(Pending, s.runs, s, ttl);
    SurplusExact(started, pending, jobs);
    VictimsInOrder(s, jobs, ttl);
    OfHas(Expired, s.runs, s, ttl, r);
    OfHas(Pending, s.runs, s, ttl, r);
    OfHas(Pending, s.runs, s, ttl, q);
    OfHas(Expired, s.runs, s, ttl, q);
    assert q in pending ==> q in Surplus(started, pending, jobs);
  }

  /** The victims of a tick are every run past its time and of the others exactly
      as many as there are too many, so just the runs past their time if there
      are not; and one in progress only if no idle run is spared. */
  lemma VictimsExact(s: Sight, jobs: int, ttl: real)
    requires Sorting.Distinct(s.runs, NAME)
    ensures var staying := Staying(s.runs, s, ttl);
            && |Victims(s, jobs, ttl)| == |s.runs| - staying + Min(Max(0, staying - jobs), staying)
            && (forall r :: r in s.runs && PastTime(r, s, ttl) ==> r in Victims(s, jobs, ttl))
            && (staying <= jobs ==> forall r :: r in Victims(s, jobs, ttl) ==> r in s.runs && PastTime(r, s, ttl))
            && (forall r, q ::
                  r in Victims(s, jobs, ttl) && r.busy && !PastTime(r, s, ttl) && q in s.runs && !q.busy ==>
                    q in Victims(s, jobs, ttl))
  {
    BusySplits(Unordered(s, jobs, ttl));
    SurplusExact(Of(Started, s.runs, s, ttl), Of(Pending, s.runs, s, ttl), jobs);
    StayingCounts(s.runs, s, ttl);
    forall r | r in s.runs && PastTime(r, s, ttl) ensures r in Victims(s, jobs, ttl) { VictimIf(s, jobs, ttl, r); }
    if Staying(s.runs, s, ttl) <= jobs {
      forall r | r in Victims(s, jobs, ttl) ensures r in s.runs && PastTime(r, s, ttl) { VictimIf(s, jobs, ttl, r); }
    }
    forall r, q | r in Victims(s, jobs, ttl) && r.busy && !PastTime(r, s, ttl) && q in s.runs && !q.busy
      ensures q in Victims(s, jobs, ttl)
    {
      IdleGoFirst(s, jobs, ttl, r, q);
    }
  }

  lemma {:induction false} OfDescends(kind: Kind, runs: seq<WorkflowRun>, s: Sight, ttl: real)
    requires Sorting.Descending(runs, BORN)
    ensures Sorting.Descending(Of(kind, runs, s, ttl), BORN)
  {
    if runs != [] {
      var rest := Of(kind, runs[..|runs| - 1], s, ttl);
      OfDescends(kind, runs[..|runs| - 1], s, ttl);
      forall i | 0 <= i < |rest| ensures BORN(rest[i]) >= BORN(runs[|runs| - 1]) {
        OfHas(kind, runs[..|runs| - 1], s, ttl, rest[i]);
      }
    }
  }

  /** Of the runs of one kind, those given up are the newest. */
  lemma NewestGo(s: Sight, ttl: real, kind: Kind, n: int, r: WorkflowRun, q: WorkflowRun)
    requires Sorting.Descending(s.runs, BORN)
    requires r in Take(Of(kind, s.runs, s, ttl), n)
    requires q in Of(kind, s.runs, s, ttl) && q !in Take(Of(kind, s.runs, s, ttl), n)
    ensures r.created >= q.created
  {
    OfDescends(kind, s.runs, s, ttl);
    var of := Of(kind, s.runs, s, ttl);
    var taken := Take(of, n);
    var i :| 0 <= i < |taken| && taken[i] == r;
    var j :| 0 <= j < |of| && of[j] == q;
    forall k | 0 <= k < |taken| ensures of[k] in taken { assert taken[k] == of[k]; }
    assert BORN(of[i]) >= BORN(of[j]);
  }

  // The budgets.

  lemma {:induction false} Counts(s: seq<WorkflowRun>, t: nat)
    requires IdleFirst(s) && t <= |s|
    ensures |Busy(s, false)| + |Busy(s, true)| == |s|
    ensures |Busy(s[..t], false)| == Min(t, |Busy(s, false)|)
    ensures |Busy(s[..t], true)| == Max(0, t - |Busy(s, false)|)
    ensures t < |s| ==> (s[t].busy <==> t >= |Busy(s, false)|)
  {
    if s != [] {
      var less := s[..|s| - 1];
      Counts(less, if t < |s| then t else t - 1);
      if |less| > 0 { Counts(less, |less| - 1); }
      if t == |s| { assert s[..t] == s; } else { assert s[..t] == less[..t]; }
    }
  }

  lemma {:induction false} DueGrows(v: seq<WorkflowRun>, stopping: set<int>, n: nat)
    requires n <= |v|
    ensures |Due(v[..n], stopping)| <= |Due(v, stopping)|
    ensures Due(v, stopping)[..|Due(v[..n], stopping)|] == Due(v[..n], stopping)
    ensures n < |v| && v[n].id !in stopping ==>
              |Due(v[..n], stopping)| < |Due(v, stopping)| && Due(v, stopping)[|Due(v[..n], stopping)|] == v[n]
  {
    if n == |v| {
      assert v[..n] == v;
    } else {
      var less := v[..|v| - 1];
      DueGrows(less, stopping, n);
      assert less[..n] == v[..n];
    }
  }

  lemma {:induction false} DueIdleFirst(v: seq<WorkflowRun>, stopping: set<int>)
    requires IdleFirst(v)
    ensures IdleFirst(Due(v, stopping))
  {
    if v != [] {
      var rest := Due(v[..|v| - 1], stopping);
      DueIdleFirst(v[..|v| - 1], stopping);
      forall i | 0 <= i < |rest| && rest[i].busy ensures v[|v| - 1].busy {
        DueHas(v[..|v| - 1], stopping, rest[i]);
      }
    }
  }

  lemma PickedWithin(due: seq<WorkflowRun>)
    requires IdleFirst(due)
    ensures |Busy(Picked(due), false)| == Min(|Busy(due, false)|, 25)
    ensures |Busy(Picked(due), true)| == if |Busy(due, false)| > 25 then 0 else Min(|Busy(due, true)|, 1)
    ensures Busy(Picked(due), true) != [] ==> |Picked(due)| > |Busy(due, false)|
    ensures Picked(due) == [] ==> due == []
  {
    Counts(due, |Picked(due)|);
  }

  lemma PickedIdle(due: seq<WorkflowRun>, r: WorkflowRun)
    requires IdleFirst(due) && |Picked(due)| > |Busy(due, false)| && r in due && !r.busy
    ensures r in Picked(due)
  {
    var i :| 0 <= i < |due| && due[i] == r;
    Counts(due, i);
    assert Picked(due)[i] == r;
  }

  /** A tick stops as many idle and busy runs as the budgets allow, all of them
      victims not stopped before; a busy one only when no idle victim is put off;
      and it stops nothing only when no victim is left to stop. */
  lemma BudgetsKept(s: Sight, jobs: int, ttl: real, stopping: set<int>)
    requires Sorting.Distinct(s.runs, NAME)
    ensures var (chosen, due) := (Chosen(s, jobs, ttl, stopping), Due(Victims(s, jobs, ttl), stopping));
            && |Busy(chosen, false)| == Min(|Busy(due, false)|, 25)
            && |Busy(chosen, true)| == (if |Busy(due, false)| > 25 then 0 else Min(|Busy(due, true)|, 1))
            && (forall r :: r in chosen ==> r in Unordered(s, jobs, ttl) && r.id !in stopping)
            && (Busy(chosen, true) != [] ==>
                  forall r :: r in Unordered(s, jobs, ttl) && !r.busy ==> r in chosen || r.id in stopping)
            && (chosen == [] ==> forall r :: r in Unordered(s, jobs, ttl) ==> r.id in stopping)
  {
    var victims := Victims(s, jobs, ttl);
    var due := Due(victims, stopping);
    var chosen := Chosen(s, jobs, ttl, stopping);
    VictimsInOrder(s, jobs, ttl);
    DueIdleFirst(victims, stopping);
    PickedWithin(due);
    forall r ensures r in due <==> r in Unordered(s, jobs, ttl) && r.id !in stopping {
      DueHas(victims, stopping, r);
    }
    forall r | r in chosen ensures r in due {}
    if Busy(chosen, true) != [] {
      forall r | r in due && !r.busy ensures r in chosen { PickedIdle(due, r); }
    }
  }

  /** When the pool does not tell who serves and the runs do not exceed `jobs`,
      no run in progress is a victim, however old it is. */
  lemma SilentPoolSpares(s: Sight, jobs: int, ttl: real, r: WorkflowRun)
    requires Sorting.Distinct(s.runs, NAME) && s.workers.None? && Staying(s.runs, s, ttl) <= jobs
    ensures r in Victims(s, jobs, ttl) <==> r in s.runs && !r.busy && s.now - r.created > ttl
  {
    VictimIf(s, jobs, ttl, r);
  }

  // The launches.

  /** A launch means that there is no surplus and that all there is, all that
      is on its way and all that is launched now fit; up to the cap nothing
      that fits is put off. */
  lemma LaunchFits(started: nat, pending: nat, recent: nat, jobs: int)
    ensures var launch := Launch(started, pending, recent, jobs);
            && 0 <= launch <= MAX_LAUNCH
            && (launch > 0 ==> started + pending < jobs && started + pending + recent + launch <= jobs)
            && (launch < MAX_LAUNCH ==> Min(started + pending, jobs) + recent + launch >= jobs)
  {}

  // The tick as one step, and whole runs.

  /** The keeper's memory across ticks. */
  datatype Keeper = Keeper(recent: seq<real>, stopping: set<int>)

  /** What a tick asked of the service: the cancels it sent, whether one of them
      was refused, which ends the tick, and the launches that got through. */
  datatype Outcome = Outcome(tried: seq<WorkflowRun>, refused: bool, launched: nat)

  function Times(now: real, n: nat): seq<real> {
    if n == 0 then [] else Times(now, n - 1) + [now]
  }

  ghost predicate Ticks(k: Keeper, s: Sight, jobs: int, ttl: real, o: Outcome, after: Keeper) {
    var listed := k.stopping * Ids(s.runs);
    var chosen := Chosen(s, jobs, ttl, listed);
    var recent := Recent(k.recent, s.now);
    && |o.tried| <= |chosen| && o.tried == chosen[..|o.tried|]
    && after.stopping == listed + Ids(o.tried)
    && (o.refused ==> o.tried != [] && o.launched == 0 && after.recent == k.recent)
    && (!o.refused ==>
          && o.tried == chosen
          && o.launched <= Launch(|Of(Started, s.runs, s, ttl)|, |Of(Pending, s.runs, s, ttl)|, |recent|, jobs)
          && after.recent == recent + Times(s.now, o.launched))
  }

  /** A tick launches only when nothing but expired runs is to be retired, and then
      all it counts and all it remembers as launched fit into `jobs`. */
  lemma LaunchMeansRoom(k: Keeper, s: Sight, jobs: int, ttl: real, o: Outcome, after: Keeper)
    requires Sorting.Distinct(s.runs, NAME) && Ticks(k, s, jobs, ttl, o, after) && o.launched > 0
    ensures forall r :: r in Victims(s, jobs, ttl) <==> r in s.runs && PastTime(r, s, ttl)
    ensures Staying(s.runs, s, ttl) + |after.recent| <= jobs
  {
    LaunchFits(|Of(Started, s.runs, s, ttl)|, |Of(Pending, s.runs, s, ttl)|, |Recent(k.recent, s.now)|, jobs);
    StayingCounts(s.runs, s, ttl);
    TimesSize(s.now, o.launched);
    VictimsExact(s, jobs, ttl);
  }

  /** `hidden` are the launches that no listing shows yet. */
  datatype Fleet = Fleet(keeper: Keeper, hidden: multiset<real>)

  datatype Act = Appear(launchedAt: real) | Tick(sight: Sight, outcome: Outcome, after: Keeper)

  /** A launch that reports an error started nothing, and one that got through
      is listed before it is forgotten. */
  ghost predicate Enabled(f: Fleet, jobs: int, ttl: real, a: Act) {
    match a
    case Appear(t) => t in f.hidden
    case Tick(s, o, after) =>
      && Sorting.Distinct(s.runs, NAME) && Ticks(f.keeper, s, jobs, ttl, o, after)
      && forall t :: t in f.hidden ==> s.now - t < GRACE
  }

  ghost function Step(f: Fleet, a: Act): Fleet {
    match a
    case Appear(t) => f.(hidden := f.hidden - multiset{t})
    case Tick(s, o, after) => Fleet(after, f.hidden + multiset(Times(s.now, o.launched)))
  }

  ghost predicate StepAt(tr: seq<Fleet>, acts: seq<Act>, jobs: int, ttl: real, i: nat)
    requires i < |acts| && |tr| == |acts| + 1
  {
    Enabled(tr[i], jobs, ttl, acts[i]) && tr[i + 1] == Step(tr[i], acts[i])
  }

  ghost predicate Run(tr: seq<Fleet>, acts: seq<Act>, jobs: int, ttl: real) {
    && |tr| == |acts| + 1 && tr[0] == Fleet(Keeper([], {}), multiset{})
    && forall i: nat :: i < |acts| ==> StepAt(tr, acts, jobs, ttl, i)
  }

  lemma {:induction false} RecentCounts(recent: seq<real>, now: real, t: real)
    ensures multiset(Recent(recent, now))[t] == if now - t < GRACE then multiset(recent)[t] else 0
  {
    if recent != [] {
      var less := recent[..|recent| - 1];
      RecentCounts(less, now, t);
      assert recent == less + [recent[|recent| - 1]];
    }
  }

  lemma {:induction false} TimesSize(now: real, n: nat)
    ensures |Times(now, n)| == n
  {
    if n > 0 { TimesSize(now, n - 1); }
  }

  lemma HiddenAreRecent(f: Fleet, s: Sight)
    requires f.hidden <= multiset(f.keeper.recent)
    requires forall t :: t in f.hidden ==> s.now - t < GRACE
    ensures f.hidden <= multiset(Recent(f.keeper.recent, s.now))
    ensures |f.hidden| <= |Recent(f.keeper.recent, s.now)|
  {
    var recent := multiset(Recent(f.keeper.recent, s.now));
    forall t ensures f.hidden[t] <= recent[t] { RecentCounts(f.keeper.recent, s.now, t); }
    assert recent == f.hidden + (recent - f.hidden);
  }

  lemma {:induction false} HiddenRemembered(tr: seq<Fleet>, acts: seq<Act>, jobs: int, ttl: real, n: nat)
    requires Run(tr, acts, jobs, ttl) && n <= |acts|
    ensures tr[n].hidden <= multiset(tr[n].keeper.recent)
  {
    if n > 0 {
      HiddenRemembered(tr, acts, jobs, ttl, n - 1);
      assert StepAt(tr, acts, jobs, ttl, n - 1);
      var f := tr[n - 1];
      match acts[n - 1]
      case Appear(_) =>
      case Tick(s, o, after) => HiddenAreRecent(f, s);
    }
  }

  /** The keeper never overbooks: after a tick that launches, the runs it counts
      and all launches still on their way, from this tick or an earlier one, are
      no more than `jobs`. */
  lemma NeverOverbooks(tr: seq<Fleet>, acts: seq<Act>, jobs: int, ttl: real, n: nat)
    requires Run(tr, acts, jobs, ttl) && n < |acts| && acts[n].Tick? && acts[n].outcome.launched > 0
    ensures var s := acts[n].sight;
            Staying(s.runs, s, ttl) + |tr[n + 1].hidden| <= jobs
  {
    var s, o := acts[n].sight, acts[n].outcome;
    HiddenRemembered(tr, acts, jobs, ttl, n);
    assert StepAt(tr, acts, jobs, ttl, n);
    HiddenAreRecent(tr[n], s);
    TimesSize(s.now, o.launched);
    var recent := Recent(tr[n].keeper.recent, s.now);
    LaunchFits(|Of(Started, s.runs, s, ttl)|, |Of(Pending, s.runs, s, ttl)|, |recent|, jobs);
    StayingCounts(s.runs, s, ttl);
  }

  lemma {:induction false} StoppingStays(tr: seq<Fleet>, acts: seq<Act>, jobs: int, ttl: real, i: nat, j: nat, id: int)
    requires Run(tr, acts, jobs, ttl) && i < j <= |acts|
    requires acts[i].Tick? && id in Ids(acts[i].outcome.tried)
    requires forall k :: i < k < j && acts[k].Tick? ==> id in Ids(acts[k].sight.runs)
    ensures id in tr[j].keeper.stopping
  {
    assert StepAt(tr, acts, jobs, ttl, j - 1);
    if i < j - 1 { StoppingStays(tr, acts, jobs, ttl, i, j - 1, id); }
  }

  /** Over any number of ticks a run that stays listed is sent one cancel at
      most: between two of them some tick did not see it. */
  lemma CancelledOnce(tr: seq<Fleet>, acts: seq<Act>, jobs: int, ttl: real, i: nat, j: nat, id: int)
    requires Run(tr, acts, jobs, ttl) && i < j < |acts|
    requires acts[i].Tick? && id in Ids(acts[i].outcome.tried)
    requires acts[j].Tick? && id in Ids(acts[j].outcome.tried)
    ensures exists k :: i < k <= j && acts[k].Tick? && id !in Ids(acts[k].sight.runs)
  {
    assert StepAt(tr, acts, jobs, ttl, j);
    var s, o := acts[j].sight, acts[j].outcome;
    var listed := tr[j].keeper.stopping * Ids(s.runs);
    TriedAreNew(s, jobs, ttl, listed, |o.tried|, id);
    if forall k :: i < k < j && acts[k].Tick? ==> id in Ids(acts[k].sight.runs) {
      StoppingStays(tr, acts, jobs, ttl, i, j, id);
    }
  }

  lemma TriedAreNew(s: Sight, jobs: int, ttl: real, stopping: set<int>, n: nat, id: int)
    requires Sorting.Distinct(s.runs, NAME) && n <= |Chosen(s, jobs, ttl, stopping)|
    requires id in Ids(Chosen(s, jobs, ttl, stopping)[..n])
    ensures id !in stopping
  {
    var chosen := Chosen(s, jobs, ttl, stopping);
    BudgetsKept(s, jobs, ttl, stopping);
    var i :| 0 <= i < n && NAME(chosen[..n][i]) == id;
    assert chosen[i] in chosen;
  }

  /** That holds for a cancel that was refused, too: over any number of ticks it
      is not repeated while its run stays listed. */
  lemma RefusedIsForgotten(tr: seq<Fleet>, acts: seq<Act>, jobs: int, ttl: real, i: nat, j: nat, r: WorkflowRun)
    requires Run(tr, acts, jobs, ttl) && i < j < |acts| && acts[i].Tick? && acts[j].Tick?
    requires acts[i].outcome.refused && acts[i].outcome.tried != []
    requires r == acts[i].outcome.tried[|acts[i].outcome.tried| - 1]
    requires forall k :: i < k <= j && acts[k].Tick? ==> r.id in Ids(acts[k].sight.runs)
    ensures r.id in tr[j].keeper.stopping && r.id !in Ids(acts[j].outcome.tried)
  {
    IdIn(acts[i].outcome.tried, r);
    StoppingStays(tr, acts, jobs, ttl, i, j, r.id);
    assert StepAt(tr, acts, jobs, ttl, j);
    var s, o := acts[j].sight, acts[j].outcome;
    var listed := tr[j].keeper.stopping * Ids(s.runs);
    forall x | x in Ids(o.tried) ensures x !in listed {
      TriedAreNew(s, jobs, ttl, listed, |o.tried|, x);
    }
  }

  // The listing.

  /** The last of the pages' entries for a run. */
  function LastOf(seen: seq<WorkflowRun>, id: int): Option<WorkflowRun> {
    if seen == [] then None
    else if seen[|seen| - 1].id == id then Some(seen[|seen| - 1])
    else LastOf(seen[..|seen| - 1], id)
  }

  ghost predicate Tells(found: seq<WorkflowRun>, seen: seq<WorkflowRun>) {
    && Sorting.Distinct(found, NAME)
    && (forall i :: 0 <= i < |found| ==> LastOf(seen, found[i].id) == Some(found[i]))
    && (forall id :: LastOf(seen, id).Some? ==> id in Ids(found))
  }

  function Flat(pages: seq<seq<WorkflowRun>>): seq<WorkflowRun> {
    if pages == [] then [] else Flat(pages[..|pages| - 1]) + pages[|pages| - 1]
  }

  lemma Replaced(found: seq<WorkflowRun>, seen: seq<WorkflowRun>, k: nat, x: WorkflowRun)
    requires Tells(found, seen) && k < |found| && found[k].id == x.id
    ensures Tells(found[k := x], seen + [x])
  {
    var now := found[k := x];
    forall i | 0 <= i < |found| ensures NAME(now[i]) == NAME(found[i]) {}
    assert Ids(now) == Ids(found);
    forall i | 0 <= i < |now| ensures LastOf(seen + [x], now[i].id) == Some(now[i]) {
      if i < k { assert NAME(found[i]) != NAME(found[k]); }
      if k < i { assert NAME(found[k]) != NAME(found[i]); }
    }
    forall id | LastOf(seen + [x], id).Some? ensures id in Ids(now) {
      IdIn(now, now[k]);
    }
  }

  lemma Added(found: seq<WorkflowRun>, seen: seq<WorkflowRun>, x: WorkflowRun)
    requires Tells(found, seen) && forall i :: 0 <= i < |found| ==> found[i].id != x.id
    ensures Tells(found + [x], seen + [x])
  {
    var now := found + [x];
    assert Ids(now) == Ids(found) + {x.id} by {
      IdIn(now, now[|found|]);
      forall id | id in Ids(found) ensures id in Ids(now) {
        var i :| 0 <= i < |found| && NAME(found[i]) == id;
        assert NAME(now[i]) == id;
      }
    }
  }

  method Put(found: seq<WorkflowRun>, x: WorkflowRun, ghost seen: seq<WorkflowRun>) returns (now: seq<WorkflowRun>)
    requires Tells(found, seen)
    ensures Tells(now, seen + [x])
  {
    for k := 0 to |found|
      invariant forall i :: 0 <= i < k ==> found[i].id != x.id
    {
      if found[k].id == x.id {
        Replaced(found, seen, k, x);
        return found[k := x];
      }
    }
    Added(found, seen, x);
    now := found + [x];
  }

  /** Every unfinished run once, as the last page that has it shows it, newest
      first. */
  method Unfinished(pages: seq<seq<WorkflowRun>>) returns (runs: seq<WorkflowRun>)
    ensures Sorting.Distinct(runs, NAME) && Sorting.Descending(runs, BORN)
    ensures forall r :: r in runs <==> LastOf(Flat(pages), r.id) == Some(r)
  {
    var found := [];
    for p := 0 to |pages|
      invariant Tells(found, Flat(pages[..p]))
    {
      assert pages[..p + 1][..p] == pages[..p];
      assert Flat(pages[..p]) + pages[p][..0] == Flat(pages[..p]);
      for n := 0 to |pages[p]|
        invariant Tells(found, Flat(pages[..p]) + pages[p][..n])
      {
        ghost var seen := Flat(pages[..p]) + pages[p][..n];
        found := Put(found, pages[p][n], seen);
        assert seen + [pages[p][n]] == Flat(pages[..p]) + pages[p][..n + 1];
      }
      assert pages[p][..|pages[p]|] == pages[p];
    }
    assert pages[..|pages|] == pages;
    runs := Sorting.Sort(found, BORN);
    Sorting.Sorted(found, BORN);
    Sorting.SortDistinct(found, BORN, NAME);
    forall r ensures r in runs <==> LastOf(Flat(pages), r.id) == Some(r) {
      Sorting.SortHas(found, BORN, r);
      if LastOf(Flat(pages), r.id) == Some(r) {
        assert r.id in Ids(found);
      }
    }
  }

  /** A victim's number is none of those before it. */
  lemma Newcomer(victims: seq<WorkflowRun>, stopping: set<int>, n: nat)
    requires Sorting.Distinct(victims, NAME) && n < |victims|
    ensures victims[n].id !in Ids(Due(victims[..n], stopping))
  {
    var due := Due(victims[..n], stopping);
    forall i | 0 <= i < |due| ensures NAME(due[i]) != victims[n].id {
      DueHas(victims[..n], stopping, due[i]);
      var k :| 0 <= k < n && victims[..n][k] == due[i];
      assert NAME(victims[k]) != NAME(victims[n]);
    }
  }

  // How far the cancels have come after `n` victims.

  ghost predicate SoFar(victims: seq<WorkflowRun>, was: set<int>, n: nat, tried: seq<WorkflowRun>) {
    && n <= |victims| && tried == Due(victims[..n], was)
    && |Busy(tried, true)| + |Busy(tried, false)| == |tried|
    && |Busy(tried, true)| <= RETIRE_BUDGET && |Busy(tried, false)| <= IDLE_BUDGET
  }

  /** The cancels sent are the front of what the budgets allow, cut short only by
      a refusal. */
  ghost predicate CutAt(victims: seq<WorkflowRun>, was: set<int>, tried: seq<WorkflowRun>, refused: bool) {
    var picked := Picked(Due(victims, was));
    |tried| <= |picked| && tried == picked[..|tried|] && (!refused ==> tried == picked)
  }

  predicate UsedUp(tried: seq<WorkflowRun>, run: WorkflowRun) {
    if run.busy then |Busy(tried, true)| >= RETIRE_BUDGET else |Busy(tried, false)| >= IDLE_BUDGET
  }

  lemma Skips(victims: seq<WorkflowRun>, was: set<int>, n: nat, tried: seq<WorkflowRun>)
    requires SoFar(victims, was, n, tried) && n < |victims| && victims[n].id in was
    ensures SoFar(victims, was, n + 1, tried)
  {
    assert victims[..n + 1][..n] == victims[..n];
  }

  lemma Goes(victims: seq<WorkflowRun>, was: set<int>, n: nat, tried: seq<WorkflowRun>)
    requires SoFar(victims, was, n, tried) && n < |victims| && victims[n].id !in was && !UsedUp(tried, victims[n])
    requires Sorting.Distinct(victims, NAME) && IdleFirst(victims)
    ensures SoFar(victims, was, n + 1, tried + [victims[n]])
    ensures Ids(tried + [victims[n]]) == Ids(tried) + {victims[n].id}
    ensures |Busy(tried + [victims[n]], true)| == |Busy(tried, true)| + if victims[n].busy then 1 else 0
    ensures CutAt(victims, was, tried + [victims[n]], true)
  {
    assert victims[..n + 1][..n] == victims[..n];
    SoFarPicked(victims, was, n + 1, tried + [victims[n]]);
  }

  lemma PickedReaches(due: seq<WorkflowRun>, t: nat)
    requires IdleFirst(due) && t <= |due|
    requires |Busy(due[..t], true)| <= RETIRE_BUDGET && |Busy(due[..t], false)| <= IDLE_BUDGET
    ensures t <= |Picked(due)| && Picked(due)[..t] == due[..t]
    ensures t == |due| || (t < |due| && UsedUp(due[..t], due[t])) ==> Picked(due) == due[..t]
  {
    Counts(due, t);
    if t == |due| { assert due[..t] == due; }
  }

  /** What was tried so far is where the budgets lead, and it is all of it when
      the victims end or the next one exceeds its budget. */
  lemma SoFarPicked(victims: seq<WorkflowRun>, was: set<int>, n: nat, tried: seq<WorkflowRun>)
    requires SoFar(victims, was, n, tried) && IdleFirst(victims)
    ensures CutAt(victims, was, tried, true)
    ensures n == |victims| || (n < |victims| && victims[n].id !in was && UsedUp(tried, victims[n])) ==>
              CutAt(victims, was, tried, false)
  {
    DueIdleFirst(victims, was);
    DueGrows(victims, was, n);
    PickedReaches(Due(victims, was), |tried|);
    if n == |victims| { assert victims[..n] == victims; }
  }

  // The tick as it runs.

  class Repo {
    const jobs: int
    const ttl: real
    var recent: seq<real>
    var stopping: set<int>

    ghost function Abs(): Keeper
      reads this
    {
      Keeper(recent, stopping)
    }

    constructor (jobs: int, ttl: real)
      ensures Abs() == Keeper([], {}) && this.jobs == jobs && this.ttl == ttl
    {
      this.jobs, this.ttl := jobs, ttl;
      recent, stopping := [], {};
    }

    method Classify(s: Sight) returns (started: seq<WorkflowRun>, pending: seq<WorkflowRun>, expired: seq<WorkflowRun>)
      ensures started == Of(Started, s.runs, s, ttl)
      ensures pending == Of(Pending, s.runs, s, ttl)
      ensures expired == Of(Expired, s.runs, s, ttl)
    {
      started, pending, expired := [], [], [];
      for n := 0 to |s.runs|
        invariant started == Of(Started, s.runs[..n], s, ttl)
        invariant pending == Of(Pending, s.runs[..n], s, ttl)
        invariant expired == Of(Expired, s.runs[..n], s, ttl)
      {
        var r := s.runs[n];
        assert s.runs[..n + 1][..n] == s.runs[..n];
        var age := s.now - r.created;
        if !r.busy {
          if age > ttl { expired := expired + [r]; } else { pending := pending + [r]; }
        } else if s.workers.None? {
          started := started + [r];
        } else if r.id in s.workers.value {
          if s.workers.value[r.id] > ttl { expired := expired + [r]; } else { started := started + [r]; }
        } else if age > BOOT_GRACE {
          expired := expired + [r];
        } else {
          started := started + [r];
        }
      }
      assert s.runs[..|s.runs|] == s.runs;
    }

    /** Sends the cancels, until a budget is used up or one is refused. */
    method Retire(victims: seq<WorkflowRun>, accepts: int -> bool) returns (tried: seq<WorkflowRun>, refused: bool)
      requires Sorting.Distinct(victims, NAME) && IdleFirst(victims)
      modifies this`stopping
      ensures CutAt(victims, old(stopping), tried, refused)
      ensures stopping == old(stopping) + Ids(tried)
      ensures forall i :: 0 <= i < |tried| - (if refused then 1 else 0) ==> accepts(tried[i].id)
      ensures refused ==> tried != [] && !accepts(tried[|tried| - 1].id)
    {
      tried, refused := [], false;
      ghost var was := stopping;
      var stopped, costly := 0, 0;
      for n := 0 to |victims|
        invariant SoFar(victims, was, n, tried) && stopping == was + Ids(tried)
        invariant stopped == |tried| && costly == |Busy(tried, true)|
        invariant forall i :: 0 <= i < |tried| ==> accepts(tried[i].id)
      {
        var run := victims[n];
        Newcomer(victims, was, n);
        SoFarPicked(victims, was, n, tried);
        if run.id in stopping {
          Skips(victims, was, n, tried);
          continue;
        }
        if run.busy && costly >= RETIRE_BUDGET { return; }
        if !run.busy && stopped - costly >= IDLE_BUDGET { return; }
        Goes(victims, was, n, tried);
        tried := tried + [run];
        stopping := stopping + {run.id};
        if !accepts(run.id) { return tried, true; }
        stopped := stopped + 1;
        costly := costly + if run.busy then 1 else 0;
      }
      SoFarPicked(victims, was, |victims|, tried);
    }

    method Dispatch(launch: nat, now: real, dispatches: nat -> bool) returns (launched: nat)
      modifies this`recent
      ensures launched <= launch && recent == old(recent) + Times(now, launched)
      ensures forall i: nat :: i < launched ==> dispatches(i)
      ensures launched < launch ==> !dispatches(launched)
    {
      launched := 0;
      while launched < launch
        invariant launched <= launch && recent == old(recent) + Times(now, launched)
        invariant forall i: nat :: i < launched ==> dispatches(i)
      {
        if !dispatches(launched) { return; }
        recent := recent + [now];
        launched := launched + 1;
      }
    }

    /** A tick, given which cancels and which launches the service accepts. */
    method Reconcile(s: Sight, accepts: int -> bool, dispatches: nat -> bool) returns (o: Outcome)
      requires Sorting.Distinct(s.runs, NAME)
      modifies this
      ensures Ticks(old(Abs()), s, jobs, ttl, o, Abs())
      ensures forall i :: 0 <= i < |o.tried| - (if o.refused then 1 else 0) ==> accepts(o.tried[i].id)
      ensures o.refused ==> !accepts(o.tried[|o.tried| - 1].id)
      ensures !o.refused ==>
                o.launched == Launch(|Of(Started, s.runs, s, ttl)|, |Of(Pending, s.runs, s, ttl)|,
                                     |Recent(old(recent), s.now)|, jobs)
                || !dispatches(o.launched)
    {
      stopping := stopping * (set r | r in s.runs :: r.id);
      assert stopping == old(stopping) * Ids(s.runs) by { IdsOf(s.runs); }
      var started, pending, expired := Classify(s);
      var surplus := Surplus(started, pending, jobs);
      var all := expired + surplus;
      var victims := Busy(all, false) + Busy(all, true);
      VictimsInOrder(s, jobs, ttl);
      var tried, refused := Retire(victims, accepts);
      if refused { return Outcome(tried, true, 0); }
      recent := Recent(recent, s.now);
      var launch := Launch(|started|, |pending|, |recent|, jobs);
      LaunchFits(|started|, |pending|, |recent|, jobs);
      var launched := Dispatch(launch, s.now, dispatches);
      return Outcome(tried, false, launched);
    }
  }

  lemma IdsOf(runs: seq<WorkflowRun>)
    ensures Ids(runs) == set r | r in runs :: r.id
  {
    forall r | r in runs ensures r.id in Ids(runs) { IdIn(runs, r); }
    forall id | id in Ids(runs) ensures exists r :: r in runs && r.id == id {
      var i :| 0 <= i < |runs| && NAME(runs[i]) == id;
      assert runs[i] in runs && runs[i].id == id;
    }
  }
}
