/** What a replay's starts say about every instant of its past: capacity, work conservation
    and order of service. */
module ReplayHistory {
  import opened Basics
  import opened Order
  import opened Scheduling
  import opened Replay
  import opened ReplayCore
  import opened ReplayStep

  predicate RunsAt(r: Request, started: Option<nat>, t: nat) {
    started.Some? && started.value <= t < started.value + r.service
  }

  /** The requests holding a slot at instant t. */
  ghost function Holding(reqs: Requests, s: Sim, t: nat): set<string> {
    set id | id in reqs && RunsAt(reqs[id], Started(s, id), t)
  }

  /** Released, not yet started, and still able to finish by profile in its useful time. */
  predicate Waits(r: Request, started: Option<nat>, t: nat) {
    r.release <= t && FitsProfile(r, t) && (started.None? || started.value > t)
  }

  /** At instant t no more than `slots` run, and all slots run if anything waits. */
  ghost predicate Fine(u: Setup, reqs: Requests, s: Sim, t: nat) {
    && |Holding(reqs, s, t)| <= u.slots
    && forall id :: id in reqs && Waits(reqs[id], Started(s, id), t) ==> |Holding(reqs, s, t)| == u.slots
  }

  ghost predicate FineBefore(u: Setup, reqs: Requests, s: Sim, b: nat) {
    forall t: nat :: t < b ==> Fine(u, reqs, s, t)
  }

  /** Released first; ids break ties. */
  predicate Arrives(a: Request, b: Request) {
    a.release < b.release || (a.release == b.release && StrLess(a.id, b.id))
  }

  /** The policy's order on requests: by release, by the end of the useful time, or by slack and then
      priority. */
  predicate Precedes(a: Request, b: Request, mode: Mode) {
    match mode
    case Fifo => Arrives(a, b)
    case Edf => a.Latest() < b.Latest() || (a.Latest() == b.Latest() && Arrives(a, b))
    case Slack =>
      var x, y := a.Latest() - a.profile, b.Latest() - b.profile;
      x < y || (x == y && (a.priority < b.priority || (a.priority == b.priority && Arrives(a, b))))
  }

  lemma PrecedesIsAhead(a: Request, b: Request, mode: Mode)
    ensures Precedes(a, b, mode) <==> Ahead(a.AsCandidate(), b.AsCandidate(), mode)
  {
  }

  /** If b started while a was released, fitted its profile and ranks ahead, then a had started. */
  ghost predicate InOrder(mode: Mode, a: Request, startA: Option<nat>, b: Request, startB: Option<nat>) {
    startB.Some? && a.release <= startB.value && FitsProfile(a, startB.value) && Precedes(a, b, mode)
    ==> startA.Some? && startA.value <= startB.value
  }

  ghost predicate Ordered(mode: Mode, reqs: Requests, s: Sim) {
    forall a, b :: a in reqs && b in reqs ==> InOrder(mode, reqs[a], Started(s, a), reqs[b], Started(s, b))
  }

  // ---- capacity and work conservation ----

  lemma FineStable(u: Setup, reqs: Requests, s: Sim, s': Sim, t: nat)
    requires Extends(s, s') && t < s.now && Fine(u, reqs, s, t)
    ensures Fine(u, reqs, s', t)
  {
    forall id | id in reqs ensures RunsAt(reqs[id], Started(s, id), t) <==> RunsAt(reqs[id], Started(s', id), t) {
      assert Started(s', id) == Started(s, id) || (Started(s, id).None? && Started(s', id) == Some(s.now));
    }
    assert Holding(reqs, s, t) == Holding(reqs, s', t);
    forall id | id in reqs && Waits(reqs[id], Started(s', id), t) ensures Waits(reqs[id], Started(s, id), t) {
      assert Started(s', id) == Started(s, id) || (Started(s, id).None? && Started(s', id) == Some(s.now));
    }
  }

  ghost function Ids(active: seq<Run>): set<string> {
    set a | a in active :: a.id
  }

  lemma {:induction false} IdsCount(active: seq<Run>)
    requires DistinctRuns(active)
    ensures |Ids(active)| == |active|
  {
    if active != [] {
      var n := |active| - 1;
      IdsCount(active[..n]);
      assert active == active[..n] + [active[n]];
      assert Ids(active) == Ids(active[..n]) + {active[n].id};
      assert active[n].id !in Ids(active[..n]);
    }
  }

  lemma NextIsLater(u: Setup, s: Sim, q: Request)
    requires Settled(u, s) && NextTime(u, s).Some?
    requires Ascending(s.active)
    ensures NextTime(u, s).value > s.now
    ensures forall a :: a in s.active ==> a.finish >= NextTime(u, s).value
    ensures q in s.queue ==> q.Latest() >= NextTime(u, s).value
  {
    if s.active != [] { assert s.active[0] in s.active; }
    LeastLatestIsLeast(s.queue);
  }

  lemma NextBeforeReleases(u: Setup, reqs: Requests, s: Sim, i: nat)
    requires Ready(u, reqs) && Settled(u, s) && NextTime(u, s).Some? && s.cursor <= i < |u.arrivals|
    ensures u.arrivals[i].release >= NextTime(u, s).value
  {
    assert u.arrivals[s.cursor].release <= u.arrivals[i].release;
  }

  lemma {:induction false} LeastLatestIsLeast(queue: seq<Request>)
    ensures LeastLatest(queue).None? <==> queue == []
    ensures forall q :: q in queue ==> LeastLatest(queue).value <= q.Latest()
    ensures queue != [] ==> exists q :: q in queue && q.Latest() == LeastLatest(queue).value
  {
    if queue != [] {
      var n := |queue| - 1;
      LeastLatestIsLeast(queue[..n]);
      assert queue == queue[..n] + [queue[n]];
    }
  }

  /** The instant lies between this iteration and the next event. */
  ghost predicate Meanwhile(u: Setup, s: Sim, t: nat) {
    s.now <= t && (NextTime(u, s).Some? ==> t < NextTime(u, s).value)
  }

  lemma SettledUnreleased(u: Setup, reqs: Requests, s: Sim, id: string, t: nat)
    requires Ready(u, reqs) && CursorOk(u, s) && Settled(u, s) && Meanwhile(u, s, t)
    requires id in reqs && reqs[id].release <= t
    ensures id in s.rows
  {
    if id !in s.rows {
      assert reqs[id] in u.arrivals;
      var i :| 0 <= i < |u.arrivals| && u.arrivals[i] == reqs[id];
      assert s.cursor <= i;
      assert u.arrivals[s.cursor].release > s.now;
      assert NextTime(u, s).Some?;
      NextBeforeReleases(u, reqs, s, i);
    }
  }

  lemma HoldingIsActive(u: Setup, reqs: Requests, s: Sim, t: nat)
    requires Core(u, reqs, s) && Settled(u, s) && Meanwhile(u, s, t)
    ensures Holding(reqs, s, t) == Ids(s.active)
  {
    forall id | id in Holding(reqs, s, t) ensures id in Ids(s.active) {
      assert RowOk(reqs[id], s.rows[id], s.now, s.queue, s.active);
      var a := Run(s.rows[id].started.value + reqs[id].service, id);
      assert a in s.active;
      assert a.id in Ids(s.active);
    }
    forall a | a in s.active ensures a.id in Holding(reqs, s, t) {
      RunOf(reqs, s, a);
      assert RowOk(reqs[a.id], s.rows[a.id], s.now, s.queue, s.active);
      assert a.finish > s.now && s.active[0] in s.active;
      assert NextTime(u, s).Some?;
      NextIsLater(u, s, reqs[a.id]);
    }
  }

  lemma FineMeanwhile(u: Setup, reqs: Requests, s: Sim, t: nat)
    requires Ready(u, reqs) && Core(u, reqs, s) && Settled(u, s) && Meanwhile(u, s, t)
    ensures Fine(u, reqs, s, t)
  {
    HoldingIsActive(u, reqs, s, t);
    IdsCount(s.active);
    forall id | id in reqs && Waits(reqs[id], Started(s, id), t) ensures |Holding(reqs, s, t)| == u.slots {
      SettledUnreleased(u, reqs, s, id, t);
      assert RowOk(reqs[id], s.rows[id], s.now, s.queue, s.active);
      assert reqs[id] in s.queue && FitsProfile(reqs[id], s.now);
    }
  }

  // ---- order of service ----

  ghost predicate SameStarts(s: Sim, t: Sim) {
    s.now == t.now && forall id :: Started(s, id) == Started(t, id)
  }

  lemma {:induction false} CompleteStarts(s: Sim)
    ensures SameStarts(s, Complete(s))
    decreases |s.active|
  {
    if s.active != [] && s.active[0].finish <= s.now {
      assert SameStarts(s, PopOne(s));
      CompleteStarts(PopOne(s));
    }
  }

  lemma {:induction false} ReleaseStarts(u: Setup, reqs: Requests, s: Sim)
    requires Ready(u, reqs) && Core(u, reqs, s)
    ensures SameStarts(s, Release(u, s))
    decreases |u.arrivals| - s.cursor
  {
    if s.cursor < |u.arrivals| && u.arrivals[s.cursor].release <= s.now {
      ReleaseOneKeeps(u, reqs, s);
      assert SameStarts(s, ReleaseOne(u, s));
      ReleaseStarts(u, reqs, ReleaseOne(u, s));
    }
  }

  lemma {:induction false} ExpireStarts(s: Sim, snapshot: seq<Request>)
    ensures SameStarts(s, Expire(s, snapshot))
    decreases |snapshot|
  {
    if snapshot != [] {
      assert SameStarts(s, ExpireOne(s, snapshot[0]));
      ExpireStarts(ExpireOne(s, snapshot[0]), snapshot[1..]);
    }
  }

  lemma PrunedOrder(u: Setup, reqs: Requests, s: Sim)
    requires Ready(u, reqs) && Core(u, reqs, s) && Ordered(u.mode, reqs, s)
    ensures Ordered(u.mode, reqs, Pruned(u, s))
  {
    CompleteStarts(s);
    CompleteKeeps(u, reqs, s);
    ReleaseStarts(u, reqs, Complete(s));
    var r := Release(u, Complete(s));
    ExpireStarts(r, r.queue);
    forall id ensures Started(s, id) == Started(Pruned(u, s), id) {
      assert Started(s, id) == Started(Complete(s), id) == Started(r, id);
    }
  }

  /** Everything released by now has a row. */
  ghost predicate AllReleased(reqs: Requests, s: Sim) {
    forall id :: id in reqs && reqs[id].release <= s.now ==> id in s.rows
  }

  lemma HeadIsLeast(es: seq<Keyed<Request>>, k: Keyed<Request>)
    requires Sorted(es) && k in es
    ensures !Less(k.rank, es[0].rank)
  {
    LessIsStrictTotal(k.rank, k.rank, k.rank);
    var i :| 0 <= i < |es| && es[i] == k;
    assert i == 0 || !Less(es[i].rank, es[0].rank);
  }

  /** Whoever is ahead of the next candidate, released and fitting, has already started. */
  lemma NobodyOvertaken(u: Setup, reqs: Requests, s: Sim, es: seq<Keyed<Request>>, a: string)
    requires RowsOk(reqs, s) && Pending(s, es, u.mode) && es != [] && AllReleased(reqs, s)
    requires a in reqs && reqs[a].release <= s.now && FitsProfile(reqs[a], s.now)
    requires Precedes(reqs[a], es[0].item, u.mode)
    ensures Started(s, a).Some? && Started(s, a).value <= s.now
  {
    assert RowOk(reqs[a], s.rows[a], s.now, s.queue, s.active);
    if s.rows[a].phase.Queued? {
      var k := Keyed(RankOf(reqs[a].AsCandidate(), s.now, u.mode), reqs[a]);
      assert k in es;
      assert es[0] in es;
      PrecedesIsAhead(reqs[a], es[0].item, u.mode);
      RankIsStatic(reqs[a].AsCandidate(), es[0].item.AsCandidate(), s.now, u.mode);
      HeadIsLeast(es, k);
    }
  }

  lemma StartOrder(u: Setup, reqs: Requests, s: Sim, es: seq<Keyed<Request>>)
    requires Core(u, reqs, s) && Pending(s, es, u.mode) && es != [] && AllReleased(reqs, s)
    requires Ordered(u.mode, reqs, s)
    ensures Ordered(u.mode, reqs, StartOne(s, es[0].item))
  {
    var x, t := es[0].item, StartOne(s, es[0].item);
    assert es[0] in es && x in s.queue;
    assert RowOk(x, s.rows[x.id], s.now, s.queue, s.active);
    forall a, b | a in reqs && b in reqs
      ensures InOrder(u.mode, reqs[a], Started(t, a), reqs[b], Started(t, b))
    {
      assert InOrder(u.mode, reqs[a], Started(s, a), reqs[b], Started(s, b));
      assert a != x.id ==> Started(t, a) == Started(s, a);
      if b == x.id {
        if reqs[a].release <= s.now && FitsProfile(reqs[a], s.now)
           && Precedes(reqs[a], x, u.mode) {
          NobodyOvertaken(u, reqs, s, es, a);
        }
      } else {
        assert Started(t, b) == Started(s, b);
      }
    }
  }

  lemma {:induction false} DispatchOrder(u: Setup, reqs: Requests, s: Sim, es: seq<Keyed<Request>>)
    requires Core(u, reqs, s) && Pending(s, es, u.mode) && Released(s) && AllReleased(reqs, s)
    requires Ordered(u.mode, reqs, s)
    ensures Ordered(u.mode, reqs, Dispatch(u.slots, s, es))
    decreases |es|
  {
    if es != [] && |s.active| < u.slots {
      var x := es[0].item;
      assert es[0] in es;
      StartOrder(u, reqs, s, es);
      StartOneKeeps(u, reqs, s, x);
      PendingAfter(s, es, u.mode);
      DispatchOrder(u, reqs, StartOne(s, x), es[1..]);
    }
  }

  lemma PrunedAllReleased(u: Setup, reqs: Requests, s: Sim)
    requires Ready(u, reqs) && Core(u, reqs, s)
    ensures AllReleased(reqs, Pruned(u, s))
  {
    var p := Pruned(u, s);
    PrunedKeeps(u, reqs, s);
    PrunedFacts(u, reqs, s);
    forall id | id in reqs && reqs[id].release <= s.now ensures id in p.rows {
      assert reqs[id] in u.arrivals;
      var i :| 0 <= i < |u.arrivals| && u.arrivals[i] == reqs[id];
    }
  }

  lemma SettleOrder(u: Setup, reqs: Requests, s: Sim)
    requires Ready(u, reqs) && Core(u, reqs, s) && PastArrivals(u, s) && Ordered(u.mode, reqs, s)
    ensures Ordered(u.mode, reqs, Settle(u, s))
  {
    var p := Pruned(u, s);
    PrunedKeeps(u, reqs, s);
    PrunedReleased(u, reqs, s);
    PrunedOrder(u, reqs, s);
    PrunedAllReleased(u, reqs, s);
    PendingAtFirst(p, u.mode);
    DispatchOrder(u, reqs, p, Sort(Eligible(p.queue, p.now, u.mode)));
  }
}
