/** One whole iteration of the replay loop: dispatch in rank order, what is settled at its end,
    and the measure that falls. */
module ReplayStep {
  import opened Order
  import opened Scheduling
  import opened Replay
  import opened ReplayCore

  /** Started now and run for its profile, the request would end before its deadline with its frame
      still young enough. */
  predicate FitsProfile(r: Request, now: int) {
    now + r.profile < r.deadline && now + r.profile < r.capture + r.maxAge
  }

  /** The sorted candidates still to serve: exactly the queued requests that fit their profile. */
  ghost predicate Pending(s: Sim, es: seq<Keyed<Request>>, mode: Mode) {
    && Sorted(es) && Order.DistinctRankIds(es)
    && (forall k :: k in es ==> k.item in s.queue && k.rank == RankOf(k.item.AsCandidate(), s.now, mode))
    && (forall q :: q in s.queue && FitsProfile(q, s.now) ==> Keyed(RankOf(q.AsCandidate(), s.now, mode), q) in es)
  }

  lemma {:induction false} EligibleSelects(queue: seq<Request>, now: nat, mode: Mode)
    requires DistinctIds(queue)
    ensures Order.DistinctRankIds(Eligible(queue, now, mode))
    ensures forall k :: k in Eligible(queue, now, mode) <==>
              k.item in queue && FitsProfile(k.item, now) && k.rank == RankOf(k.item.AsCandidate(), now, mode)
  {
    if queue != [] {
      var n := |queue| - 1;
      assert queue == queue[..n] + [queue[n]];
      EligibleSelects(queue[..n], now, mode);
    }
  }

  lemma PendingAtFirst(s: Sim, mode: Mode)
    requires DistinctIds(s.queue)
    ensures Pending(s, Sort(Eligible(s.queue, s.now, mode)), mode)
    ensures forall k :: k in Sort(Eligible(s.queue, s.now, mode)) ==> FitsProfile(k.item, s.now)
  {
    var es := Eligible(s.queue, s.now, mode);
    EligibleSelects(s.queue, s.now, mode);
    SortSorts(es);
    SortDistinct(es);
    forall q | q in s.queue && FitsProfile(q, s.now)
      ensures Keyed(RankOf(q.AsCandidate(), s.now, mode), q) in Sort(es)
    {
      assert Keyed(RankOf(q.AsCandidate(), s.now, mode), q) in es;
    }
  }

  lemma PendingAfter(s: Sim, es: seq<Keyed<Request>>, mode: Mode)
    requires Pending(s, es, mode) && es != [] && DistinctIds(s.queue)
    ensures Pending(StartOne(s, es[0].item), es[1..], mode)
  {
    RemoveRemoves(s.queue, es[0].item.id);
    assert es == [es[0]] + es[1..];
    forall k | k in es[1..] ensures k.item.id != es[0].item.id {
      assert k.rank.id == k.item.id && es[0] in es;
    }
  }

  ghost predicate Released(s: Sim) {
    forall q :: q in s.queue ==> q.release <= s.now
  }

  lemma {:induction false} DispatchKeeps(u: Setup, reqs: Requests, s: Sim, es: seq<Keyed<Request>>)
    requires Core(u, reqs, s) && Pending(s, es, u.mode) && Released(s)
    ensures Core(u, reqs, Dispatch(u.slots, s, es)) && Extends(s, Dispatch(u.slots, s, es))
    ensures forall q :: q in Dispatch(u.slots, s, es).queue ==> q in s.queue
    ensures 2 * |Dispatch(u.slots, s, es).queue| + |Dispatch(u.slots, s, es).active| <= 2 * |s.queue| + |s.active|
    decreases |es|
  {
    hide Core, Pending, Remove, Push;
    if es != [] && |s.active| < u.slots {
      var x := es[0].item;
      assert x in s.queue && DistinctIds(s.queue) by { HeadIsQueued(u, reqs, s, es); }
      StartOneKeeps(u, reqs, s, x);
      PushInserts(s.active, Run(s.now + x.service, x.id));
      RemoveRemoves(s.queue, x.id);
      RemoveShortens(s.queue, x);
      PendingAfter(s, es, u.mode);
      DispatchKeeps(u, reqs, StartOne(s, x), es[1..]);
    }
  }

  lemma HeadIsQueued(u: Setup, reqs: Requests, s: Sim, es: seq<Keyed<Request>>)
    requires Core(u, reqs, s) && Pending(s, es, u.mode) && es != []
    ensures es[0].item in s.queue && DistinctIds(s.queue)
  {
    assert es[0] in es;
  }

  /** Dispatch stops only for want of slots or of candidates. */
  lemma {:induction false} DispatchFills(u: Setup, s: Sim, es: seq<Keyed<Request>>)
    requires Pending(s, es, u.mode) && DistinctIds(s.queue)
    ensures forall q :: q in Dispatch(u.slots, s, es).queue && FitsProfile(q, s.now) ==>
              |Dispatch(u.slots, s, es).active| >= u.slots
    ensures Dispatch(u.slots, s, es).cursor == s.cursor && Dispatch(u.slots, s, es).now == s.now
    decreases |es|
  {
    if es != [] && |s.active| < u.slots {
      PendingAfter(s, es, u.mode);
      RemoveRemoves(s.queue, es[0].item.id);
      DispatchFills(u, StartOne(s, es[0].item), es[1..]);
    }
  }

  lemma {:induction false} DispatchFuture(slots: nat, s: Sim, es: seq<Keyed<Request>>)
    requires forall k :: k in es ==> k.item.Valid()
    requires forall a :: a in s.active ==> a.finish > s.now
    ensures forall a :: a in Dispatch(slots, s, es).active ==> a.finish > s.now
    decreases |es|
  {
    if es != [] && |s.active| < slots {
      var x := es[0].item;
      assert es[0] in es;
      PushInserts(s.active, Run(s.now + x.service, x.id));
      DispatchFuture(slots, StartOne(s, x), es[1..]);
    }
  }

  // ---- the whole iteration ----

  function Pruned(u: Setup, s: Sim): Sim {
    var released := Release(u, Complete(s));
    Expire(released, released.queue)
  }

  /** What holds between an iteration and the jump of the clock. */
  ghost predicate Settled(u: Setup, s: Sim) {
    && (forall a :: a in s.active ==> a.finish > s.now)
    && (forall i :: s.cursor <= i < |u.arrivals| ==> u.arrivals[i].release > s.now)
    && (forall q :: q in s.queue ==> q.Latest() > s.now)
    && (forall q :: q in s.queue && FitsProfile(q, s.now) ==> |s.active| == u.slots)
  }

  lemma ExtendsTrans(a: Sim, b: Sim, c: Sim)
    requires Extends(a, b) && Extends(b, c)
    ensures Extends(a, c)
  {
  }

  lemma PrunedKeeps(u: Setup, reqs: Requests, s: Sim)
    requires Ready(u, reqs) && Core(u, reqs, s)
    ensures Core(u, reqs, Pruned(u, s)) && Extends(s, Pruned(u, s))
  {
    var c := Complete(s);
    CompleteKeeps(u, reqs, s);
    ReleaseKeeps(u, reqs, c);
    var r := Release(u, c);
    ExpireKeeps(u, reqs, r, r.queue);
    ExtendsTrans(s, c, r);
    ExtendsTrans(s, r, Pruned(u, s));
  }

  lemma PrunedFacts(u: Setup, reqs: Requests, s: Sim)
    requires Ready(u, reqs) && Core(u, reqs, s)
    ensures forall a :: a in Pruned(u, s).active ==> a.finish > s.now
    ensures forall i :: Pruned(u, s).cursor <= i < |u.arrivals| ==> u.arrivals[i].release > s.now
    ensures forall q :: q in Pruned(u, s).queue ==> q.Latest() > s.now
    ensures Pruned(u, s).now == s.now && Pruned(u, s).cursor <= |u.arrivals|
  {
    var c := Complete(s);
    CompleteKeeps(u, reqs, s);
    CompleteDoes(s);
    ReleaseKeeps(u, reqs, c);
    ReleaseDoes(u, c);
    var r := Release(u, c);
    ExpireKeeps(u, reqs, r, r.queue);
    ExpireLeaves(r, r.queue);
  }

  /** Arrivals come in order of release, so whatever is in the rows has been released. */
  lemma RowsReleased(u: Setup, reqs: Requests, s: Sim)
    requires Ready(u, reqs) && Core(u, reqs, s)
    requires forall i :: 0 <= i < s.cursor ==> u.arrivals[i].release <= s.now
    ensures Released(s)
  {
    forall q | q in s.queue ensures q.release <= s.now {
      assert q in u.arrivals;
      var i :| 0 <= i < |u.arrivals| && u.arrivals[i] == q;
    }
  }

  lemma {:induction false} ReleasePast(u: Setup, s: Sim)
    requires s.cursor <= |u.arrivals| && forall i :: 0 <= i < s.cursor ==> u.arrivals[i].release <= s.now
    ensures Release(u, s).cursor <= |u.arrivals|
    ensures forall i :: 0 <= i < Release(u, s).cursor ==> u.arrivals[i].release <= s.now
    decreases |u.arrivals| - s.cursor
  {
    if s.cursor < |u.arrivals| && u.arrivals[s.cursor].release <= s.now {
      ReleasePast(u, ReleaseOne(u, s));
    }
  }

  ghost predicate PastArrivals(u: Setup, s: Sim) {
    s.cursor <= |u.arrivals| && forall i :: 0 <= i < s.cursor ==> u.arrivals[i].release <= s.now
  }

  lemma PrunedReleased(u: Setup, reqs: Requests, s: Sim)
    requires Ready(u, reqs) && Core(u, reqs, s) && PastArrivals(u, s)
    ensures PastArrivals(u, Pruned(u, s)) && Released(Pruned(u, s))
  {
    var c := Complete(s);
    CompleteDoes(s);
    ReleasePast(u, c);
    ReleaseDoes(u, c);
    var r := Release(u, c);
    ExpireLeaves(r, r.queue);
    PrunedKeeps(u, reqs, s);
    RowsReleased(u, reqs, Pruned(u, s));
  }

  /** One iteration keeps the invariant and leaves the instant settled. */
  lemma SettleKeeps(u: Setup, reqs: Requests, s: Sim)
    requires Ready(u, reqs) && Core(u, reqs, s) && PastArrivals(u, s)
    ensures Core(u, reqs, Settle(u, s)) && Extends(s, Settle(u, s))
    ensures PastArrivals(u, Settle(u, s))
  {
    var p := Pruned(u, s);
    PrunedKeeps(u, reqs, s);
    PrunedReleased(u, reqs, s);
    PendingAtFirst(p, u.mode);
    var es := Sort(Eligible(p.queue, p.now, u.mode));
    DispatchKeeps(u, reqs, p, es);
    DispatchFills(u, p, es);
    ExtendsTrans(s, p, Settle(u, s));
  }

  lemma SettleSettles(u: Setup, reqs: Requests, s: Sim)
    requires Ready(u, reqs) && Core(u, reqs, s) && PastArrivals(u, s)
    ensures Settled(u, Settle(u, s))
  {
    var p := Pruned(u, s);
    PrunedKeeps(u, reqs, s);
    PrunedFacts(u, reqs, s);
    PrunedReleased(u, reqs, s);
    PendingAtFirst(p, u.mode);
    var es := Sort(Eligible(p.queue, p.now, u.mode));
    DispatchKeeps(u, reqs, p, es);
    DispatchFills(u, p, es);
    DispatchFuture(u.slots, p, es);
  }

  // ---- the measure ----

  /** Three units for each request to come, two for each queued, one for each running. */
  function Work(u: Setup, s: Sim): int {
    3 * (|u.arrivals| - s.cursor) + 2 * |s.queue| + |s.active|
  }

  /** Some event falls at or before the present instant. */
  ghost predicate Due(u: Setup, s: Sim) {
    || (s.cursor < |u.arrivals| && u.arrivals[s.cursor].release <= s.now)
    || (s.active != [] && s.active[0].finish <= s.now)
    || (exists q :: q in s.queue && q.Latest() <= s.now)
  }

  lemma PrunedWork(u: Setup, reqs: Requests, s: Sim)
    requires Ready(u, reqs) && Core(u, reqs, s)
    ensures Work(u, Pruned(u, s)) <= Work(u, s)
    ensures Due(u, s) ==> Work(u, Pruned(u, s)) < Work(u, s)
  {
    var c := Complete(s);
    CompleteKeeps(u, reqs, s);
    assert Ascending(s.active);
    CompleteDoes(s);
    hide Complete, Core, Ready, Extends;
    ReleaseKeeps(u, reqs, c);
    ReleaseDoes(u, c);
    var r := Release(u, c);
    hide Release;
    ExpireKeeps(u, reqs, r, r.queue);
    ExpireLeaves(r, r.queue);
    hide Expire;
    if q :| q in s.queue && q.Latest() <= s.now {
      assert q in c.queue && q in r.queue;
    }
  }

  /** An iteration never adds work, and takes some away whenever an event is due. */
  lemma SettleWork(u: Setup, reqs: Requests, s: Sim)
    requires Ready(u, reqs) && Core(u, reqs, s) && PastArrivals(u, s)
    ensures 0 <= Work(u, Settle(u, s)) <= Work(u, s)
    ensures Due(u, s) ==> Work(u, Settle(u, s)) < Work(u, s)
  {
    var p := Pruned(u, s);
    PrunedKeeps(u, reqs, s);
    PrunedReleased(u, reqs, s);
    PrunedWork(u, reqs, s);
    PendingAtFirst(p, u.mode);
    var es := Sort(Eligible(p.queue, p.now, u.mode));
    DispatchKeeps(u, reqs, p, es);
    DispatchFills(u, p, es);
  }
}
