/** The replay as a whole: termination, what every request's row ends as, and the scheduling
    theorems over the run. */
module ReplayRun {
  import opened Basics
  import opened Order
  import opened Scheduling
  import opened Replay
  import opened ReplayCore
  import opened ReplayStep
  import opened ReplayHistory

  ghost predicate AtTop(u: Setup, reqs: Requests, s: Sim) {
    Ready(u, reqs) && Core(u, reqs, s) && PastArrivals(u, s)
  }

  lemma JumpKeeps(u: Setup, reqs: Requests, s: Sim, n: nat)
    requires Core(u, reqs, s) && PastArrivals(u, s) && s.now <= n
    ensures Core(u, reqs, s.(now := n)) && PastArrivals(u, s.(now := n))
  {
    var t := s.(now := n);
    forall id | id in t.rows
      ensures id in reqs && reqs[id].id == id && RowOk(reqs[id], t.rows[id], t.now, t.queue, t.active) {
      assert RowOk(reqs[id], s.rows[id], s.now, s.queue, s.active);
    }
  }

  /** The clock jumps to an event, so the next iteration finds one due. */
  lemma JumpIsDue(u: Setup, s: Sim)
    requires Settled(u, s) && Ascending(s.active) && s.cursor <= |u.arrivals| && NextTime(u, s).Some?
    ensures NextTime(u, s).value > s.now
    ensures Due(u, s.(now := NextTime(u, s).value))
  {
    LeastLatestIsLeast(s.queue);
  }

  lemma Iterates(u: Setup, reqs: Requests, s: Sim)
    requires AtTop(u, reqs, s)
    ensures Core(u, reqs, Settle(u, s)) && Settled(u, Settle(u, s)) && PastArrivals(u, Settle(u, s))
    ensures Extends(s, Settle(u, s))
    ensures 0 <= Work(u, Settle(u, s)) <= Work(u, s)
    ensures Due(u, s) ==> Work(u, Settle(u, s)) < Work(u, s)
    ensures NextTime(u, Settle(u, s)).Some? ==>
              var t := Settle(u, s).(now := NextTime(u, Settle(u, s)).value);
              AtTop(u, reqs, t) && Due(u, t) && Work(u, t) == Work(u, Settle(u, s)) && t.now > s.now
  {
    SettleKeeps(u, reqs, s);
    SettleSettles(u, reqs, s);
    SettleWork(u, reqs, s);
    var t := Settle(u, s);
    if NextTime(u, t).Some? {
      JumpIsDue(u, t);
      JumpKeeps(u, reqs, t, NextTime(u, t).value);
    }
  }

  /** The `while` loop. */
  ghost function Loop(u: Setup, reqs: Requests, s: Sim): Sim
    requires AtTop(u, reqs, s)
    decreases Work(u, s), if Due(u, s) then 0 else 1
  {
    if !Busy(u, s) then s else
    Iterates(u, reqs, s);
    var t := Settle(u, s);
    match NextTime(u, t)
    case None => t
    case Some(n) => Loop(u, reqs, t.(now := n))
  }

  /** How often the loop body is entered. */
  ghost function Rounds(u: Setup, reqs: Requests, s: Sim): nat
    requires AtTop(u, reqs, s)
    decreases Work(u, s), if Due(u, s) then 0 else 1
  {
    if !Busy(u, s) then 0 else
    Iterates(u, reqs, s);
    var t := Settle(u, s);
    match NextTime(u, t)
    case None => 1
    case Some(n) => 1 + Rounds(u, reqs, t.(now := n))
  }

  lemma {:induction false} RoundsBounded(u: Setup, reqs: Requests, s: Sim)
    requires AtTop(u, reqs, s)
    ensures Rounds(u, reqs, s) <= Work(u, s) + if Due(u, s) then 0 else 1
    decreases Work(u, s), if Due(u, s) then 0 else 1
  {
    if Busy(u, s) {
      Iterates(u, reqs, s);
      var t := Settle(u, s);
      if NextTime(u, t).Some? {
        RoundsBounded(u, reqs, t.(now := NextTime(u, t).value));
      }
    }
  }

  /** The loop breaks only when nothing is left to do. */
  lemma BreakAbandonsNothing(u: Setup, s: Sim)
    requires Settled(u, s) && s.cursor <= |u.arrivals| && NextTime(u, s).None?
    ensures !Busy(u, s)
  {
    if Busy(u, s) { BusyHasNext(u, s); }
  }

  lemma BusyHasNext(u: Setup, s: Sim)
    requires Settled(u, s) && s.cursor <= |u.arrivals| && Busy(u, s)
    ensures NextTime(u, s).Some?
  {
    LeastLatestIsLeast(s.queue);
    if s.active != [] { assert s.active[0] in s.active; }
  }

  /** Everything said of the past of a simulation. */
  ghost predicate History(u: Setup, reqs: Requests, s: Sim) {
    FineBefore(u, reqs, s, s.now) && Ordered(u.mode, reqs, s) && StartsFit(reqs, s)
  }

  ghost predicate StartsFit(reqs: Requests, s: Sim) {
    forall id :: id in reqs && Started(s, id).Some? ==> FitsProfile(reqs[id], Started(s, id).value)
  }

  lemma {:induction false} DispatchFits(slots: nat, reqs: Requests, s: Sim, es: seq<Keyed<Request>>)
    requires forall k :: k in es ==> FitsProfile(k.item, s.now) && k.item.id in reqs && reqs[k.item.id] == k.item
    requires StartsFit(reqs, s)
    ensures StartsFit(reqs, Dispatch(slots, s, es))
    decreases |es|
  {
    if es != [] && |s.active| < slots {
      var x, t := es[0].item, StartOne(s, es[0].item);
      assert es[0] in es;
      forall id | id in reqs && Started(t, id).Some? ensures FitsProfile(reqs[id], Started(t, id).value) {
        assert id != x.id ==> Started(t, id) == Started(s, id);
      }
      DispatchFits(slots, reqs, t, es[1..]);
    }
  }

  lemma SettleFits(u: Setup, reqs: Requests, s: Sim)
    requires AtTop(u, reqs, s) && StartsFit(reqs, s)
    ensures StartsFit(reqs, Settle(u, s))
  {
    var c := Complete(s);
    CompleteStarts(s);
    CompleteKeeps(u, reqs, s);
    ReleaseStarts(u, reqs, c);
    var r := Release(u, c);
    ExpireStarts(r, r.queue);
    var p := Pruned(u, s);
    forall id ensures Started(s, id) == Started(p, id) {
      assert Started(s, id) == Started(c, id) == Started(r, id);
    }
    PrunedKeeps(u, reqs, s);
    PendingAtFirst(p, u.mode);
    DispatchFits(u.slots, reqs, p, Sort(Eligible(p.queue, p.now, u.mode)));
  }

  lemma SettleHistory(u: Setup, reqs: Requests, s: Sim, b: nat)
    requires AtTop(u, reqs, s) && History(u, reqs, s)
    requires NextTime(u, Settle(u, s)).Some? ==> b <= NextTime(u, Settle(u, s)).value
    ensures FineBefore(u, reqs, Settle(u, s), b)
    ensures Ordered(u.mode, reqs, Settle(u, s)) && StartsFit(reqs, Settle(u, s))
  {
    Iterates(u, reqs, s);
    SettleOrder(u, reqs, s);
    SettleFits(u, reqs, s);
    var t := Settle(u, s);
    forall i: nat | i < b ensures Fine(u, reqs, t, i) {
      if i < s.now {
        FineStable(u, reqs, s, t, i);
      } else {
        FineMeanwhile(u, reqs, t, i);
      }
    }
  }

  lemma FineIgnoresNow(u: Setup, reqs: Requests, s: Sim, n: nat, b: nat)
    requires FineBefore(u, reqs, s, b)
    ensures FineBefore(u, reqs, s.(now := n), b)
  {
    var t := s.(now := n);
    forall i: nat | i < b ensures Fine(u, reqs, t, i) {
      assert Fine(u, reqs, s, i);
      assert forall id :: Started(s, id) == Started(t, id);
      assert Holding(reqs, s, i) == Holding(reqs, t, i);
    }
  }

  lemma DoneHistory(u: Setup, reqs: Requests, s: Sim, b: nat)
    requires AtTop(u, reqs, s) && History(u, reqs, s) && !Busy(u, s) && Settled(u, s)
    ensures FineBefore(u, reqs, s, b)
  {
    hide Fine;
    forall i: nat | i < b ensures Fine(u, reqs, s, i) {
      if i >= s.now { FineMeanwhile(u, reqs, s, i); }
    }
  }

  lemma JumpHistory(u: Setup, reqs: Requests, t: Sim, n: nat)
    requires FineBefore(u, reqs, t, n) && Ordered(u.mode, reqs, t) && StartsFit(reqs, t)
    ensures History(u, reqs, t.(now := n))
  {
    FineIgnoresNow(u, reqs, t, n, n);
    hide FineBefore, Fine;
    var w := t.(now := n);
    assert forall id :: Started(t, id) == Started(w, id);
  }

  /** At the end of the loop nothing is busy and the whole past, up to any instant, is as it should be. */
  lemma {:induction false} LoopHistory(u: Setup, reqs: Requests, s: Sim, b: nat)
    requires AtTop(u, reqs, s) && History(u, reqs, s)
    requires !Busy(u, s) ==> Settled(u, s)
    ensures Core(u, reqs, Loop(u, reqs, s)) && Settled(u, Loop(u, reqs, s)) && !Busy(u, Loop(u, reqs, s))
    ensures FineBefore(u, reqs, Loop(u, reqs, s), b)
    ensures Ordered(u.mode, reqs, Loop(u, reqs, s)) && StartsFit(reqs, Loop(u, reqs, s))
    decreases Work(u, s), if Due(u, s) then 0 else 1
  {
    hide FineBefore, Ordered, StartsFit, Settle, NextTime, Core, Ready;
    if !Busy(u, s) {
      DoneHistory(u, reqs, s, b);
    } else {
      Iterates(u, reqs, s);
      var t := Settle(u, s);
      if NextTime(u, t).Some? {
        var n := NextTime(u, t).value;
        SettleHistory(u, reqs, s, n);
        JumpHistory(u, reqs, t, n);
        DueIsBusy(u, t.(now := n));
        LoopHistory(u, reqs, t.(now := n), b);
      } else {
        SettleHistory(u, reqs, s, b);
        BreakAbandonsNothing(u, t);
      }
    }
  }

  lemma DueIsBusy(u: Setup, s: Sim)
    requires Due(u, s)
    ensures Busy(u, s)
  {
  }

  // ---- a trace's own setup ----

  lemma FrontIds(rs: seq<Request>)
    requires rs != [] && DistinctIds(rs)
    ensures var n := |rs| - 1;
            && DistinctIds(rs[..n])
            && (forall r :: r in rs[..n] ==> r.id != rs[n].id)
            && (forall r :: r in rs <==> r in rs[..n] || r == rs[n])
  {
    assert rs == rs[..|rs| - 1] + [rs[|rs| - 1]];
  }

  lemma {:induction false} ByIdFinds(rs: seq<Request>)
    requires DistinctIds(rs)
    ensures forall r :: r in rs ==> r.id in ById(rs) && ById(rs)[r.id] == r
    ensures forall id :: id in ById(rs) ==> ById(rs)[id].id == id && ById(rs)[id] in rs
  {
    hide DistinctIds;
    if rs != [] {
      FrontIds(rs);
      ByIdFinds(rs[..|rs| - 1]);
    }
  }

  function KeyOf(r: Request): Keyed<Request> { Keyed(Rank(r.release, 0, 0, r.id), r) }

  lemma KeysGrow(ks: seq<Keyed<Request>>, k: Keyed<Request>)
    requires Order.DistinctRankIds(ks) && forall x :: x in ks ==> x.rank.id != k.rank.id
    ensures Order.DistinctRankIds(ks + [k]) && forall x :: x in ks + [k] <==> x in ks || x == k
  {
    forall i | 0 <= i < |ks| ensures ks[i].rank.id != k.rank.id { assert ks[i] in ks; }
  }

  lemma {:induction false} ArrivalKeysOf(rs: seq<Request>)
    requires DistinctIds(rs)
    ensures Order.DistinctRankIds(ArrivalKeys(rs))
    ensures forall k :: k in ArrivalKeys(rs) <==> k.item in rs && k == KeyOf(k.item)
    ensures |ArrivalKeys(rs)| == |rs|
  {
    hide DistinctIds, Order.DistinctRankIds;
    if rs == [] {
      assert Order.DistinctRankIds(ArrivalKeys(rs)) by { NoKeys(); }
    } else {
      var n := |rs| - 1;
      FrontIds(rs);
      ArrivalKeysOf(rs[..n]);
      KeysGrow(ArrivalKeys(rs[..n]), KeyOf(rs[n]));
    }
  }

  lemma NoKeys()
    ensures Order.DistinctRankIds<Request>([])
  {
  }

  /** The keys of requests, sorted: each request once under its own key, in order. */
  ghost predicate SortedKeys(rs: seq<Request>, ks: seq<Keyed<Request>>) {
    && |ks| == |rs| && Order.Sorted(ks) && Order.DistinctRankIds(ks)
    && forall k :: k in ks <==> k.item in rs && k == KeyOf(k.item)
  }

  lemma KeysSorted(rs: seq<Request>)
    requires DistinctIds(rs)
    ensures SortedKeys(rs, Sort(ArrivalKeys(rs)))
  {
    hide DistinctIds, Order.DistinctRankIds, Order.Sorted, Sort;
    ArrivalKeysOf(rs);
    hide ArrivalKeys;
    SortSorts(ArrivalKeys(rs));
    SortDistinct(ArrivalKeys(rs));
  }

  lemma SameItems(rs: seq<Request>, ks: seq<Keyed<Request>>, r: Request)
    requires SortedKeys(rs, ks)
    ensures r in Items(ks) <==> r in rs
  {
    hide Order.DistinctRankIds, Order.Sorted;
    var xs := Items(ks);
    if r in xs {
      var i :| 0 <= i < |xs| && xs[i] == r;
      assert ks[i] in ks;
    }
    if r in rs {
      assert KeyOf(r) in ks;
      var i :| 0 <= i < |ks| && ks[i] == KeyOf(r);
      assert xs[i] == r;
    }
  }

  lemma KeyedPair(rs: seq<Request>, ks: seq<Keyed<Request>>, i: nat, j: nat)
    requires SortedKeys(rs, ks) && i < j < |ks|
    ensures Arrives(ks[i].item, ks[j].item)
  {
    assert ks[i] in ks && ks[j] in ks;
    LessIsStrictTotal(ks[i].rank, ks[j].rank, ks[i].rank);
  }

  /** Sorting the arrivals: same requests, in strict order of (release, id). */
  lemma ArrivalsSorted(tr: Trace, mode: Mode)
    requires tr.Valid()
    ensures forall r :: r in SetupOf(tr, mode).arrivals <==> r in tr.requests
    ensures |SetupOf(tr, mode).arrivals| == |tr.requests|
    ensures forall i, j :: 0 <= i < j < |SetupOf(tr, mode).arrivals| ==>
              Arrives(SetupOf(tr, mode).arrivals[i], SetupOf(tr, mode).arrivals[j])
  {
    hide SortedKeys, ArrivalKeys, Sort, Arrives;
    KeysSorted(tr.requests);
    var ks := Sort(ArrivalKeys(tr.requests));
    var xs := Items(ks);
    assert |ks| == |tr.requests| by { KeysCount(tr.requests, ks); }
    forall r ensures r in xs <==> r in tr.requests { SameItems(tr.requests, ks, r); }
    forall i, j | 0 <= i < j < |xs| ensures Arrives(xs[i], xs[j]) { KeyedPair(tr.requests, ks, i, j); }
  }

  lemma KeysCount(rs: seq<Request>, ks: seq<Keyed<Request>>)
    requires SortedKeys(rs, ks)
    ensures |ks| == |rs|
  {
  }

  lemma ArrivalsDistinct(tr: Trace, mode: Mode)
    requires tr.Valid()
    ensures DistinctIds(SetupOf(tr, mode).arrivals)
  {
    KeysSorted(tr.requests);
    hide ArrivalKeys, Sort, Trace.Valid;
    var ks := Sort(ArrivalKeys(tr.requests));
    forall i, j | 0 <= i < j < |ks| ensures ks[i].item.id != ks[j].item.id {
      assert ks[i] in ks && ks[j] in ks;
    }
  }

  lemma SetupIsReady(tr: Trace, mode: Mode)
    requires tr.Valid()
    ensures Ready(SetupOf(tr, mode), ById(tr.requests))
    ensures |SetupOf(tr, mode).arrivals| == |tr.requests|
  {
    ByIdFinds(tr.requests);
    ArrivalsSorted(tr, mode);
    ArrivalsDistinct(tr, mode);
    var xs := SetupOf(tr, mode).arrivals;
    forall i, j | 0 <= i < j < |xs| ensures xs[i].release <= xs[j].release {
      assert Arrives(xs[i], xs[j]);
    }
  }

  lemma StartIsCore(u: Setup, reqs: Requests)
    requires Ready(u, reqs)
    ensures AtTop(u, reqs, START) && History(u, reqs, START) && Work(u, START) == 3 * |u.arrivals|
    ensures !Busy(u, START) ==> Settled(u, START)
  {
  }

  lemma SetupReady(tr: Trace, mode: Mode)
    requires tr.Valid()
    ensures AtTop(SetupOf(tr, mode), ById(tr.requests), START)
    ensures History(SetupOf(tr, mode), ById(tr.requests), START)
    ensures Work(SetupOf(tr, mode), START) == 3 * |tr.requests|
    ensures !Busy(SetupOf(tr, mode), START) ==> Settled(SetupOf(tr, mode), START)
  {
    SetupIsReady(tr, mode);
    hide Ready, AtTop, History, Settled, SetupOf, ById;
    StartIsCore(SetupOf(tr, mode), ById(tr.requests));
  }

  /** The variables at the end of `replay(tr, mode)`. */
  ghost function Final(tr: Trace, mode: Mode): Sim
    requires tr.Valid()
  {
    SetupReady(tr, mode);
    Loop(SetupOf(tr, mode), ById(tr.requests), START)
  }

  // ---- theorems about every replay ----

  lemma ReplayTerminates(tr: Trace, mode: Mode)
    requires tr.Valid()
    ensures AtTop(SetupOf(tr, mode), ById(tr.requests), START)
    ensures Rounds(SetupOf(tr, mode), ById(tr.requests), START) <= 3 * |tr.requests| + 1
  {
    SetupReady(tr, mode);
    RoundsBounded(SetupOf(tr, mode), ById(tr.requests), START);
  }

  /** A request that ended: undispatched with its deadline or the age of its frame passed, or run without
      interruption for exactly its service time from a start inside its window, and in time exactly if it
      was done before both. */
  ghost predicate EndsProperly(r: Request, row: Row, end: nat) {
    && row.id == r.id && row.session == r.session && row.workload == r.workload
    && row.release == r.release && row.capture == r.capture && row.latest == r.Latest()
    && row.phase in {ExpiredUndispatched, InTime, Late}
    && if row.phase.ExpiredUndispatched?
       then row.started.None? && row.completed.None? && (r.deadline <= end || r.capture + r.maxAge <= end)
       else RanThrough(r, row)
            && (row.phase.InTime? <==> row.completed.value < r.deadline && row.completed.value < r.capture + r.maxAge)
  }

  ghost predicate RanThrough(r: Request, row: Row) {
    && row.started.Some? && r.release <= row.started.value
    && row.started.value + r.profile < r.deadline && row.started.value + r.profile < r.capture + r.maxAge
    && row.completed == Some(row.started.value + r.service)
  }

  lemma EveryRequestEnds(tr: Trace, mode: Mode)
    requires tr.Valid()
    ensures Final(tr, mode).rows.Keys == ById(tr.requests).Keys
    ensures forall r :: r in tr.requests ==>
              r.id in Final(tr, mode).rows && EndsProperly(r, Final(tr, mode).rows[r.id], Final(tr, mode).now)
  {
    hide Trace.Valid, Settle, NextTime, FineBefore, Ordered, ReplayCore.Ready, SetupOf, ById, Loop;
    var u, reqs, f := SetupOf(tr, mode), ById(tr.requests), Final(tr, mode);
    SetupReady(tr, mode);
    LoopHistory(u, reqs, START, 0);
    RequestsFound(tr, mode);
    forall id | id in reqs ensures id in f.rows {
      assert reqs[id] in u.arrivals;
      var i :| 0 <= i < |u.arrivals| && u.arrivals[i] == reqs[id];
    }
    forall r | r in tr.requests ensures r.id in f.rows && EndsProperly(r, f.rows[r.id], f.now) {
      assert r.id in reqs && reqs[r.id] == r;
      assert RowOk(r, f.rows[r.id], f.now, f.queue, f.active);
      assert Started(f, r.id).Some? ==> FitsProfile(r, Started(f, r.id).value);
    }
  }

  /** The map and the sorted list hold the trace's own requests. */
  lemma RequestsFound(tr: Trace, mode: Mode)
    requires tr.Valid()
    ensures forall r :: r in tr.requests ==> r.id in ById(tr.requests) && ById(tr.requests)[r.id] == r
    ensures forall id :: id in ById(tr.requests) ==>
              ById(tr.requests)[id].id == id && ById(tr.requests)[id] in SetupOf(tr, mode).arrivals
  {
    ByIdFinds(tr.requests);
    ArrivalsSorted(tr, mode);
  }

  /** At every instant at most `slots` requests run, and if any released request that still fits its
      profile is not yet started, then exactly `slots` run: no slot idles while work waits. */
  lemma WorkConserving(tr: Trace, mode: Mode, t: nat)
    requires tr.Valid()
    ensures |Holding(ById(tr.requests), Final(tr, mode), t)| <= tr.slots
    ensures forall r :: r in tr.requests && Waits(r, Started(Final(tr, mode), r.id), t) ==>
              |Holding(ById(tr.requests), Final(tr, mode), t)| == tr.slots
  {
    SetupReady(tr, mode);
    LoopHistory(SetupOf(tr, mode), ById(tr.requests), START, t + 1);
    hide Loop, SetupOf, Waits;
    assert Fine(SetupOf(tr, mode), ById(tr.requests), Final(tr, mode), t);
    ByIdFinds(tr.requests);
    SlotsOf(tr, mode);
  }

  lemma SlotsOf(tr: Trace, mode: Mode)
    ensures SetupOf(tr, mode).slots == tr.slots && SetupOf(tr, mode).mode == mode
  {
  }

  /** A request that expired undispatched met full slots at each instant it could have been started. */
  lemma ExpiredOnlyWhenFull(tr: Trace, mode: Mode, r: Request, t: nat)
    requires tr.Valid() && r in tr.requests
    requires r.id in Final(tr, mode).rows && Final(tr, mode).rows[r.id].phase == ExpiredUndispatched
    requires r.release <= t && t + r.profile < r.deadline && t + r.profile < r.capture + r.maxAge
    ensures |Holding(ById(tr.requests), Final(tr, mode), t)| == tr.slots
  {
    WorkConserving(tr, mode, t);
    EveryRequestEnds(tr, mode);
    ByIdFinds(tr.requests);
    assert EndsProperly(r, Final(tr, mode).rows[r.id], Final(tr, mode).now);
    assert Waits(ById(tr.requests)[r.id], Started(Final(tr, mode), r.id), t);
  }

  /** Whoever is released, fits and ranks ahead at another's start has started by then. */
  lemma RankOrderKept(tr: Trace, mode: Mode, a: Request, b: Request)
    requires tr.Valid() && a in tr.requests && b in tr.requests
    ensures InOrder(mode, a, Started(Final(tr, mode), a.id), b, Started(Final(tr, mode), b.id))
    ensures Started(Final(tr, mode), a.id).Some? && Started(Final(tr, mode), b.id).Some?
            && a.release <= Started(Final(tr, mode), b.id).value && Precedes(a, b, mode)
            ==> Started(Final(tr, mode), a.id).value <= Started(Final(tr, mode), b.id).value
  {
    SetupReady(tr, mode);
    LoopHistory(SetupOf(tr, mode), ById(tr.requests), START, 0);
    ByIdFinds(tr.requests);
    var f := Final(tr, mode);
    assert Started(f, a.id).Some? ==> FitsProfile(ById(tr.requests)[a.id], Started(f, a.id).value);
    assert InOrder(mode, ById(tr.requests)[a.id], Started(f, a.id), ById(tr.requests)[b.id], Started(f, b.id));
  }

  /** FIFO starts follow arrival order outright. */
  lemma FifoFollowsArrivals(tr: Trace, a: Request, b: Request)
    requires tr.Valid() && a in tr.requests && b in tr.requests && Arrives(a, b)
    requires Started(Final(tr, Fifo), a.id).Some? && Started(Final(tr, Fifo), b.id).Some?
    ensures Started(Final(tr, Fifo), a.id).value <= Started(Final(tr, Fifo), b.id).value
  {
    RankOrderKept(tr, Fifo, a, b);
    EveryRequestEnds(tr, Fifo);
    assert EndsProperly(b, Final(tr, Fifo).rows[b.id], Final(tr, Fifo).now);
  }

  /** A dispatched request whose service stays within its profile is never late. */
  lemma WithinProfileInTime(tr: Trace, mode: Mode, r: Request)
    requires tr.Valid() && r in tr.requests && r.service <= r.profile
    ensures r.id in Final(tr, mode).rows && Final(tr, mode).rows[r.id].phase in {InTime, ExpiredUndispatched}
  {
    EveryRequestEnds(tr, mode);
    assert EndsProperly(r, Final(tr, mode).rows[r.id], Final(tr, mode).now);
  }
}
