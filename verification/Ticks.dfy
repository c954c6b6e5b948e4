/** `tick` as a whole: lapse what is stale, scan the queue, serve the ready jobs in rank order. The clock
    is read once to lapse, again to rank, and again before each service. */
module Ticks {
  import opened Basics
  import opened Order
  import opened Contracts
  import opened Scheduling
  import opened Ledger
  import opened Coordinator
  import opened Placing
  import opened Invariant
  import opened Steps
  import opened TaskSteps
  import opened SubmitSteps
  import opened Growth
  import opened Runs
  import Cache

  function PendingIds(d: Disk): seq<string> { InStates(d, d.order, {Queued, Running}) }

  /** `_expire`. */
  function ExpireAll(w: World, ids: seq<string>): World
    decreases |ids|
  {
    if ids == [] then w else ExpireAll(Expire(w, ids[0]), ids[1..])
  }

  /** `min` of the allowed endpoints' estimates; the 0 for none is never reached. */
  function MinEstimate(eps: seq<Endpoint>): nat {
    if eps == [] then 0
    else if |eps| == 1 || eps[|eps| - 1].estimate < MinEstimate(eps[..|eps| - 1]) then eps[|eps| - 1].estimate
    else MinEstimate(eps[..|eps| - 1])
  }

  function CandidateOf(cfg: Config, d: Disk, id: string): Candidate
    requires Has(d, id)
  {
    var job := d.jobs[id].job;
    Candidate(id, d.jobs[id].receipt.submitted, job.Latest(SessionOf(d, id)), MinEstimate(Allowed(cfg, job)), job.priority)
  }

  datatype Scan = Scan(world: World, ready: seq<Keyed<string>>)

  /** The dependency scan over the queue as it stood when the scan began. */
  function ScanQueue(cfg: Config, w: World, ids: seq<string>): Scan
    decreases |ids|
  {
    if ids == [] then Scan(w, []) else ScanOne(cfg, ScanQueue(cfg, w, ids[..|ids| - 1]), ids[|ids| - 1])
  }

  function ScanOne(cfg: Config, s: Scan, id: string): Scan {
    if !Has(s.world.disk, id) then s
    else if !DepsAlive(s.world.disk, s.world.disk.jobs[id].job.dependencies) then s.(world := Prune(s.world, id))
    else if !DepsDone(s.world.disk, s.world.disk.jobs[id].job.dependencies) then s
    else s.(ready := s.ready + [Keyed(RankOf(CandidateOf(cfg, s.world.disk, id), s.world.mem.now, cfg.mode), id)])
  }

  /** A later reading of the clock; it never runs backwards. */
  function Later(w: World, now: nat): World { if w.mem.now <= now then w.(mem := w.mem.(now := now)) else w }

  /** The ready jobs in turn, the clock read again before each. */
  ghost function ServeAll(cfg: Config, w: World, ids: seq<string>, clock: nat -> nat): World
    requires cfg.Valid()
    decreases |ids|
  {
    if ids == [] then w else
    var n := |ids| - 1;
    Serve(cfg, Later(ServeAll(cfg, w, ids[..n], clock), clock(n)), ids[n])
  }

  /** What the scan starts from: everything lapsed is gone, and the clock was read again for the ranks. */
  function Lapsed(w: World, ranked: nat): World { Later(ExpireAll(w, PendingIds(w.disk)), ranked) }

  function Scanned(cfg: Config, w: World, ranked: nat): Scan {
    ScanQueue(cfg, Lapsed(w, ranked), QueuedIds(Lapsed(w, ranked).disk))
  }

  /** The jobs served, in order. */
  function Turns(cfg: Config, w: World, ranked: nat): seq<string> { Items(Sort(Scanned(cfg, w, ranked).ready)) }

  ghost function Tick(cfg: Config, w: World, ranked: nat, clock: nat -> nat): World
    requires cfg.Valid()
  {
    if w.mem.closed then w else ServeAll(cfg, Scanned(cfg, w, ranked).world, Turns(cfg, w, ranked), clock)
  }

  // ---- a tick is a run of elementary steps ----

  function Expiries(ids: seq<string>): seq<Step> { seq(|ids|, i requires 0 <= i < |ids| => ExpireStep(ids[i])) }

  function Services(ids: seq<string>, clock: nat -> nat): seq<Step> {
    if ids == [] then [] else
    var n := |ids| - 1;
    Services(ids[..n], clock) + [ClockStep(clock(n)), ServeStep(ids[n])]
  }

  lemma {:induction false} ExpireAllIsRun(cfg: Config, w: World, ids: seq<string>)
    requires cfg.Valid() && w.up
    ensures ExpireAll(w, ids) == Exec(cfg, w, Expiries(ids))
    decreases |ids|
  {
    hide Expire;
    if ids != [] {
      assert Expiries(ids)[1..] == Expiries(ids[1..]);
      ExpireUp(w, ids[0]);
      ExpireAllIsRun(cfg, Expire(w, ids[0]), ids[1..]);
    }
  }

  lemma ExpireUp(w: World, id: string)
    ensures Expire(w, id).up == w.up && Expire(w, id).mem == w.mem
  {
  }

  lemma LaterIsStep(cfg: Config, w: World, now: nat)
    requires cfg.Valid() && w.up
    ensures Apply(cfg, w, ClockStep(now)) == Later(w, now)
  {
  }

  lemma LaterKeeps(cfg: Config, w: World, now: nat)
    requires cfg.Valid() && Inv(cfg, w) && w.up
    ensures Inv(cfg, Later(w, now))
  {
    hide Inv, Grows, Apply, Later;
    LaterIsStep(cfg, w, now);
    StepKeeps(cfg, w, ClockStep(now));
  }

  lemma ServeIsStep(cfg: Config, w: World, id: string)
    requires cfg.Valid() && w.up
    ensures Apply(cfg, w, ServeStep(id)) == Serve(cfg, w, id)
  {
    hide Serve;
  }

  lemma {:induction false} ServeAllIsRun(cfg: Config, w: World, ids: seq<string>, clock: nat -> nat)
    requires cfg.Valid() && w.up
    ensures ServeAll(cfg, w, ids, clock) == Exec(cfg, w, Services(ids, clock))
    ensures Kindred(w, ServeAll(cfg, w, ids, clock))
    decreases |ids|
  {
    hide Serve, Later, Apply, Exec, Kindred;
    if ids == [] {
      ExecNone(cfg, w);
      KindredSelf(w);
    } else {
      var n := |ids| - 1;
      var v := ServeAll(cfg, w, ids[..n], clock);
      ServeAllIsRun(cfg, w, ids[..n], clock);
      ExecAppend(cfg, w, Services(ids[..n], clock), [ClockStep(clock(n)), ServeStep(ids[n])]);
      ExecTwo(cfg, v, ClockStep(clock(n)), ServeStep(ids[n]));
      KindredHas(w, v, "");
      LaterIsStep(cfg, v, clock(n));
      LaterKindred(v, clock(n));
      KindredHas(v, Later(v, clock(n)), "");
      ServeIsStep(cfg, Later(v, clock(n)), ids[n]);
      ServeKindred(cfg, Later(v, clock(n)), ids[n]);
      KindredOn(w, v, Later(v, clock(n)));
      KindredOn(w, Later(v, clock(n)), ServeAll(cfg, w, ids, clock));
    }
  }

  lemma ExecNone(cfg: Config, w: World)
    requires cfg.Valid()
    ensures Exec(cfg, w, []) == w
  {
  }

  /** The prunings a scan makes. */
  function Prunings(ids: seq<string>): seq<Step> { seq(|ids|, i requires 0 <= i < |ids| => PruneStep(ids[i])) }

  lemma PruneWhenDead(w: World, id: string)
    requires !w.mem.closed && Has(w.disk, id) && DepsAlive(w.disk, w.disk.jobs[id].job.dependencies)
    ensures Prune(w, id) == w
  {
  }

  /** Same clock epoch, sessions and jobs, and nothing newly pending. */
  ghost predicate Kindred(w: World, n: World) {
    && n.up == w.up && n.mem.clockId == w.mem.clockId && n.mem.closed == w.mem.closed
    && n.disk.sessions == w.disk.sessions && n.disk.jobs.Keys == w.disk.jobs.Keys
    && forall x :: x in w.disk.jobs ==> Akin(w.disk.jobs[x], n.disk.jobs[x])
  }

  predicate Akin(a: Row, b: Row) {
    b.job == a.job && b.receipt.submitted == a.receipt.submitted && (Pending(b.receipt.state) ==> Pending(a.receipt.state))
  }

  lemma WriteKindred(w: World, id: string, r: Receipt, n: World)
    requires id in w.disk.jobs && r.submitted == w.disk.jobs[id].receipt.submitted
    requires Pending(r.state) ==> Pending(StateOf(w.disk, id))
    requires n.disk.jobs == SetReceipt(w.disk, id, r).jobs && n.disk.sessions == w.disk.sessions
    requires n.up == w.up && n.mem.clockId == w.mem.clockId && n.mem.closed == w.mem.closed
    ensures Kindred(w, n)
  {
    forall x | x in w.disk.jobs ensures Akin(w.disk.jobs[x], n.disk.jobs[x]) { }
  }

  lemma KindredOn(a: World, b: World, c: World)
    requires Kindred(a, b) && Kindred(b, c)
    ensures Kindred(a, c)
  {
    forall x | x in a.disk.jobs ensures Akin(a.disk.jobs[x], c.disk.jobs[x]) {
      assert Akin(a.disk.jobs[x], b.disk.jobs[x]) && Akin(b.disk.jobs[x], c.disk.jobs[x]);
    }
  }

  lemma ServeKindred(cfg: Config, w: World, id: string)
    requires cfg.Valid()
    ensures Kindred(w, Serve(cfg, w, id))
  {
    hide Job.InvalidReason, DepsDone, Cache.Get, Place, CanReserve, Kindred;
    if Servable(w, id) {
      var r, n := w.disk.jobs[id].receipt, Serve(cfg, w, id);
      var reason := ReasonNow(w, id);
      if reason.Some? {
        WriteKindred(w, id, r.(state := Lapse(reason.value), reason := reason), n);
      } else {
        ServeFreshKindred(cfg, w, id);
      }
    } else {
      assert Kindred(w, w) by { KindredSelf(w); }
    }
  }

  lemma KindredSelf(w: World)
    ensures Kindred(w, w)
  {
  }

  lemma LaterKindred(w: World, now: nat)
    ensures Kindred(w, Later(w, now))
  {
  }

  lemma PlacedKindred(cfg: Config, w: World, id: string)
    requires cfg.Valid() && Servable(w, id)
    ensures Kindred(w, Placed(cfg, w, id))
  {
    hide Job.InvalidReason, DepsDone, Place, CanReserve, Kindred, KeyFor, Plus;
    KindredSelf(w);
    var r, n, place := w.disk.jobs[id].receipt, Placed(cfg, w, id), Place(cfg, w, id);
    if place.Chosen? {
      if !CanReserve(w.disk, place.endpoint.reserve) {
        WriteKindred(w, id, r.(state := Rejected, reason := Some(AttemptOrCostCeiling)), n);
      } else if id !in w.disk.attempts {
        WriteKindred(w, id, Started(r, place.endpoint, w.mem.now), n);
      }
    }
  }

  lemma ServeFreshKindred(cfg: Config, w: World, id: string)
    requires cfg.Valid() && Servable(w, id) && ReasonNow(w, id).None?
    ensures Kindred(w, Serve(cfg, w, id))
  {
    hide Job.InvalidReason, DepsDone, Cache.Get, Kindred, KeyFor, Placed, Serve;
    var lookup := Cache.Get(cfg.limits, w.mem.cache, KeyFor(cfg, w.disk.jobs[id].job), w.mem.now);
    if lookup.hit.Some? {
      HitIsFinished(cfg, w, id);
      WriteKindred(w, id, Finished(w.disk.jobs[id].receipt, lookup.hit.value, w.mem.now), Serve(cfg, w, id));
    } else {
      MissIsPlaced(cfg, w, id);
      PlacedKindred(cfg, Looked(cfg, w, id), id);
      KindredLooked(cfg, w, id);
      KindredOn(w, Looked(cfg, w, id), Serve(cfg, w, id));
    }
  }

  lemma KindredLooked(cfg: Config, w: World, id: string)
    requires id in w.disk.jobs
    ensures Kindred(w, Looked(cfg, w, id))
  {
    hide Cache.Get, KeyFor;
  }

  lemma PruneKindred(w: World, id: string)
    ensures Kindred(w, Prune(w, id)) && Prune(w, id).mem == w.mem
  {
    hide DepsAlive, Kindred;
    KindredSelf(w);
    if Prune(w, id) != w {
      WriteKindred(w, id, w.disk.jobs[id].receipt.(state := Rejected, reason := Some(DependencyFailed)), Prune(w, id));
    }
  }

  lemma ScanOneKindred(cfg: Config, s: Scan, id: string)
    ensures Kindred(s.world, ScanOne(cfg, s, id).world) && ScanOne(cfg, s, id).world.mem == s.world.mem
  {
    hide DepsAlive, DepsDone, CandidateOf, RankOf, Prune, Kindred;
    KindredSelf(s.world);
    PruneKindred(s.world, id);
  }

  lemma {:induction false} ScanKindred(cfg: Config, w: World, ids: seq<string>)
    ensures Kindred(w, ScanQueue(cfg, w, ids).world) && ScanQueue(cfg, w, ids).world.mem == w.mem
    decreases |ids|
  {
    hide ScanOne, Kindred;
    if ids == [] {
      KindredSelf(w);
    } else {
      var s := ScanQueue(cfg, w, ids[..|ids| - 1]);
      ScanKindred(cfg, w, ids[..|ids| - 1]);
      ScanOneKindred(cfg, s, ids[|ids| - 1]);
      KindredOn(w, s.world, ScanQueue(cfg, w, ids).world);
    }
  }

  lemma ScanOneIsPrune(cfg: Config, s: Scan, id: string)
    requires Has(s.world.disk, id) && !s.world.mem.closed
    ensures ScanOne(cfg, s, id).world == Prune(s.world, id)
  {
    hide DepsAlive, DepsDone, CandidateOf, RankOf, Prune;
    if DepsAlive(s.world.disk, s.world.disk.jobs[id].job.dependencies) { PruneWhenDead(s.world, id); }
  }

  lemma KindredHas(w: World, n: World, id: string)
    requires Kindred(w, n)
    ensures Has(n.disk, id) == Has(w.disk, id) && n.up == w.up && n.mem.closed == w.mem.closed
  {
    if id in w.disk.jobs { assert Akin(w.disk.jobs[id], n.disk.jobs[id]); }
  }

  lemma {:induction false} ScanIsRun(cfg: Config, w: World, ids: seq<string>)
    requires cfg.Valid() && w.up && !w.mem.closed && forall x :: x in ids ==> Has(w.disk, x)
    ensures ScanQueue(cfg, w, ids).world == Exec(cfg, w, Prunings(ids))
    decreases |ids|
  {
    hide Prune, ScanOne, Has, Kindred;
    if ids != [] {
      var n := |ids| - 1;
      var id, s := ids[n], ScanQueue(cfg, w, ids[..n]);
      ScanIsRun(cfg, w, ids[..n]);
      assert Prunings(ids) == Prunings(ids[..n]) + [PruneStep(id)];
      ExecAppend(cfg, w, Prunings(ids[..n]), [PruneStep(id)]);
      hide Exec;
      ExecOne(cfg, s.world, PruneStep(id));
      assert id in ids;
      ScanKindred(cfg, w, ids[..n]);
      KindredHas(w, s.world, id);
      ScanOneIsPrune(cfg, s, id);
    }
  }

  function TickSteps(cfg: Config, w: World, ranked: nat, clock: nat -> nat): seq<Step> {
    Expiries(PendingIds(w.disk)) + [ClockStep(ranked)] + Prunings(QueuedIds(Lapsed(w, ranked).disk))
    + Services(Turns(cfg, w, ranked), clock)
  }

  lemma QueuedHave(cfg: Config, w: World, id: string)
    requires Inv(cfg, w) && id in QueuedIds(w.disk)
    ensures Has(w.disk, id) && InState(w.disk, id, Queued)
  {
    hide Locals, Solvent, Seats, UseOk, CacheOk, SlotOrder, Graph, Progress;
    QueuedListed(w.disk);
  }

  /** Up to the scan, the tick is the run of its expiries and a reading of the clock. */
  lemma LapsedIsRun(cfg: Config, w: World, ranked: nat)
    requires cfg.Valid() && Inv(cfg, w) && w.up
    ensures var v := Lapsed(w, ranked);
            && v == Exec(cfg, w, Expiries(PendingIds(w.disk)) + [ClockStep(ranked)])
            && Inv(cfg, v) && Grows(cfg, w, v) && v.up && v.mem.closed == w.mem.closed
  {
    hide Inv, Grows, Exec, ExpireAll, PendingIds, Later;
    var ids := PendingIds(w.disk);
    var w1 := ExpireAll(w, ids);
    ExpireAllIsRun(cfg, w, ids);
    ExpireAllUp(w, ids);
    ExecAppend(cfg, w, Expiries(ids), [ClockStep(ranked)]);
    ExecOne(cfg, w1, ClockStep(ranked));
    LaterIsStep(cfg, w1, ranked);
    RunKeeps(cfg, w, Expiries(ids) + [ClockStep(ranked)]);
    LaterKindred(w1, ranked);
    KindredHas(w1, Lapsed(w, ranked), "");
  }

  /** A tick is the run of its expiries, prunings and services, one job at a time. */
  lemma TickIsRun(cfg: Config, w: World, ranked: nat, clock: nat -> nat)
    requires cfg.Valid() && Inv(cfg, w) && w.up && !w.mem.closed
    ensures Tick(cfg, w, ranked, clock) == Exec(cfg, w, TickSteps(cfg, w, ranked, clock))
  {
    hide Inv, Grows, Exec, Turns, ScanQueue, ServeAll, Lapsed, Expiries, QueuedIds, Kindred;
    var v := Lapsed(w, ranked);
    var queued, early := QueuedIds(v.disk), Expiries(PendingIds(w.disk)) + [ClockStep(ranked)];
    LapsedIsRun(cfg, w, ranked);
    forall x | x in queued ensures Has(v.disk, x) { QueuedHave(cfg, v, x); }
    ScanIsRun(cfg, v, queued);
    ScanKindred(cfg, v, queued);
    KindredHas(v, Scanned(cfg, w, ranked).world, "");
    ServeAllIsRun(cfg, Scanned(cfg, w, ranked).world, Turns(cfg, w, ranked), clock);
    ExecAppend(cfg, w, early, Prunings(queued));
    ExecAppend(cfg, w, early + Prunings(queued), Services(Turns(cfg, w, ranked), clock));
  }

  lemma {:induction false} ExpireAllUp(w: World, ids: seq<string>)
    ensures ExpireAll(w, ids).up == w.up && ExpireAll(w, ids).mem == w.mem
    decreases |ids|
  {
    if ids != [] {
      ExpireUp(w, ids[0]);
      ExpireAllUp(Expire(w, ids[0]), ids[1..]);
    }
  }

  /** So a tick keeps everything runs keep. */
  lemma TickKeeps(cfg: Config, w: World, ranked: nat, clock: nat -> nat)
    requires cfg.Valid() && Inv(cfg, w) && w.up
    ensures Inv(cfg, Tick(cfg, w, ranked, clock)) && Grows(cfg, w, Tick(cfg, w, ranked, clock))
  {
    hide Inv, Grows, Exec;
    if w.mem.closed {
      SameGrows(cfg, w, w);
    } else {
      TickIsRun(cfg, w, ranked, clock);
      hide Tick, TickSteps;
      RunKeeps(cfg, w, TickSteps(cfg, w, ranked, clock));
    }
  }

  // ---- the order of service ----

  /** The estimate a job is ranked by is the least of its allowed endpoints', of which there is one. */
  lemma {:induction false} MinEstimateIsLeast(eps: seq<Endpoint>)
    requires eps != []
    ensures forall e :: e in eps ==> MinEstimate(eps) <= e.estimate
    ensures exists e :: e in eps && MinEstimate(eps) == e.estimate
  {
    var n := |eps| - 1;
    assert eps == eps[..n] + [eps[n]];
    assert eps[n] in eps;
    if n > 0 {
      MinEstimateIsLeast(eps[..n]);
      var e :| e in eps[..n] && MinEstimate(eps[..n]) == e.estimate;
      assert e in eps;
    }
  }

  lemma QueuedAllowed(cfg: Config, w: World, id: string)
    requires Inv(cfg, w) && w.up && InState(w.disk, id, Queued)
    ensures Allowed(cfg, w.disk.jobs[id].job) != []
  {
    hide Inv;
    InvLocal(cfg, w, id);
  }

  /** The estimate a queued job is ranked by is the least of the endpoints that may serve it, of which
      there is one. */
  lemma EstimateIsLeast(cfg: Config, w: World, id: string)
    requires Inv(cfg, w) && w.up && InState(w.disk, id, Queued)
    ensures var job := w.disk.jobs[id].job;
            && (exists e :: MayServe(cfg, job, e) && e.estimate == MinEstimate(Allowed(cfg, job)))
            && (forall e :: MayServe(cfg, job, e) ==> MinEstimate(Allowed(cfg, job)) <= e.estimate)
  {
    hide Inv, MinEstimate, Allowed, MayServe;
    var job := w.disk.jobs[id].job;
    QueuedAllowed(cfg, w, id);
    AllowedMeans(cfg, job);
    MinEstimateIsLeast(Allowed(cfg, job));
  }

  /** What is on the ready list: distinct queued jobs, each under its own rank. */
  ghost predicate ReadyOk(cfg: Config, w: World, ids: seq<string>, ready: seq<Keyed<string>>) {
    && DistinctRankIds(ready)
    && forall k :: k in ready ==> k.item in ids && Has(w.disk, k.item) && k.rank.id == k.item
                                  && k.rank == RankOf(CandidateOf(cfg, w.disk, k.item), w.mem.now, cfg.mode)
  }

  lemma KindredCandidate(cfg: Config, w: World, n: World, id: string)
    requires Kindred(w, n) && Has(w.disk, id) && Has(n.disk, id)
    ensures CandidateOf(cfg, n.disk, id) == CandidateOf(cfg, w.disk, id)
  {
    hide MinEstimate, Allowed;
    assert Akin(w.disk.jobs[id], n.disk.jobs[id]);
  }

  lemma ReadyGrows(cfg: Config, w: World, ids: seq<string>, ready: seq<Keyed<string>>, id: string)
    requires ReadyOk(cfg, w, ids, ready) && id !in ids && Has(w.disk, id)
    ensures ReadyOk(cfg, w, ids + [id], ready)
    ensures ReadyOk(cfg, w, ids + [id], ready + [Keyed(RankOf(CandidateOf(cfg, w.disk, id), w.mem.now, cfg.mode), id)])
  {
    RankIsOwn(CandidateOf(cfg, w.disk, id), w.mem.now, cfg.mode);
    CandidateId(cfg, w.disk, id);
    hide CandidateOf, RankOf;
    var k := Keyed(RankOf(CandidateOf(cfg, w.disk, id), w.mem.now, cfg.mode), id);
    forall j | 0 <= j < |ready| ensures ready[j].rank.id != id { assert ready[j] in ready; }
    forall x | x in ready + [k] ensures x in ready || x == k { }
  }

  lemma {:induction false} ScanRanks(cfg: Config, w: World, ids: seq<string>)
    requires Distinct(ids)
    ensures ReadyOk(cfg, w, ids, ScanQueue(cfg, w, ids).ready)
    decreases |ids|
  {
    hide DepsAlive, DepsDone, CandidateOf, RankOf, Prune, Kindred;
    if ids != [] {
      var n := |ids| - 1;
      var id, s := ids[n], ScanQueue(cfg, w, ids[..n]);
      assert ids == ids[..n] + [id];
      ScanRanks(cfg, w, ids[..n]);
      ScanKindred(cfg, w, ids[..n]);
      KindredHas(w, s.world, id);
      if Has(s.world.disk, id) {
        KindredCandidate(cfg, w, s.world, id);
        ReadyGrows(cfg, w, ids[..n], s.ready, id);
      }
    }
  }

  lemma RankIsOwn(c: Candidate, now: int, mode: Mode)
    ensures RankOf(c, now, mode).id == c.id
  {
  }

  /** The policy's order on jobs: by submission, by the end of the useful time, or by slack over the least
      estimate and then priority. */
  predicate ServedFirst(cfg: Config, d: Disk, a: string, b: string)
    requires Has(d, a) && Has(d, b)
  {
    var x, y := d.jobs[a], d.jobs[b];
    var older := x.receipt.submitted < y.receipt.submitted || (x.receipt.submitted == y.receipt.submitted && StrLess(a, b));
    var endX, endY := x.job.Latest(SessionOf(d, a)), y.job.Latest(SessionOf(d, b));
    match cfg.mode
    case Fifo => older
    case Edf => endX < endY || (endX == endY && older)
    case Slack =>
      var slackX, slackY := endX - MinEstimate(Allowed(cfg, x.job)), endY - MinEstimate(Allowed(cfg, y.job));
      || slackX < slackY
      || (slackX == slackY && (x.job.priority < y.job.priority || (x.job.priority == y.job.priority && older)))
  }

  lemma AheadIsServedFirst(cfg: Config, d: Disk, a: string, b: string)
    requires Has(d, a) && Has(d, b)
    ensures Ahead(CandidateOf(cfg, d, a), CandidateOf(cfg, d, b), cfg.mode) <==> ServedFirst(cfg, d, a, b)
  {
    hide MinEstimate, Allowed, Job.Latest;
  }

  /** Ready jobs are served strictly in the order of the policy, which does not depend on the clock. */
  lemma ServedInRankOrder(cfg: Config, w: World, ranked: nat, i: nat, j: nat)
    requires cfg.Valid() && Inv(cfg, w) && w.up && !w.mem.closed
    requires i < j < |Turns(cfg, w, ranked)|
    ensures var d, turns := Lapsed(w, ranked).disk, Turns(cfg, w, ranked);
            Has(d, turns[i]) && Has(d, turns[j]) && ServedFirst(cfg, d, turns[i], turns[j])
  {
    hide Inv, Grows, QueuedIds, Ahead, RankOf, CandidateOf, ScanQueue, Sort, Lapsed, ServedFirst;
    var v := Lapsed(w, ranked);
    LapsedIsRun(cfg, w, ranked);
    InvOrder(cfg, v);
    QueuedListed(v.disk);
    ScanRanks(cfg, v, QueuedIds(v.disk));
    RankedPair(cfg, v, QueuedIds(v.disk), Scanned(cfg, w, ranked).ready, i, j);
    AheadIsServedFirst(cfg, v.disk, Turns(cfg, w, ranked)[i], Turns(cfg, w, ranked)[j]);
  }

  lemma RankedPair(cfg: Config, w: World, ids: seq<string>, ready: seq<Keyed<string>>, i: nat, j: nat)
    requires ReadyOk(cfg, w, ids, ready) && i < j < |Sort(ready)|
    ensures Has(w.disk, Sort(ready)[i].item) && Has(w.disk, Sort(ready)[j].item)
    ensures Ahead(CandidateOf(cfg, w.disk, Sort(ready)[i].item), CandidateOf(cfg, w.disk, Sort(ready)[j].item), cfg.mode)
  {
    hide CandidateOf, RankOf, Ahead, Sort;
    SortSorts(ready);
    SortDistinct(ready);
    var x, y := Sort(ready)[i], Sort(ready)[j];
    assert x in ready && y in ready && x.rank.id != y.rank.id;
    var a, b := CandidateOf(cfg, w.disk, x.item), CandidateOf(cfg, w.disk, y.item);
    CandidateId(cfg, w.disk, x.item);
    CandidateId(cfg, w.disk, y.item);
    RankIsStatic(a, b, w.mem.now, cfg.mode);
    RankIsStatic(b, a, w.mem.now, cfg.mode);
  }

  lemma CandidateId(cfg: Config, d: Disk, id: string)
    requires Has(d, id)
    ensures CandidateOf(cfg, d, id).id == id
  {
  }

  // ---- what a tick leaves behind ----

  /** Why the job could not be used at that reading of the clock. */
  function ReasonAt(w: World, id: string, now: nat): Option<Reason>
    requires Has(w.disk, id)
  {
    w.disk.jobs[id].job.InvalidReason(SessionOf(w.disk, id), now, w.mem.clockId)
  }

  /** Every queued or running job is usable at that reading. */
  ghost predicate Fresh(w: World, now: nat) {
    forall id :: Has(w.disk, id) && Pending(StateOf(w.disk, id)) ==> ReasonAt(w, id, now).None?
  }

  lemma {:induction false} ExpireAllFreshens(w: World, ids: seq<string>)
    requires forall id :: Has(w.disk, id) && Pending(StateOf(w.disk, id)) && id !in ids ==> ReasonNow(w, id).None?
    ensures Fresh(ExpireAll(w, ids), w.mem.now)
    decreases |ids|
  {
    hide Job.InvalidReason;
    if ids != [] {
      var n := Expire(w, ids[0]);
      forall id | Has(n.disk, id) && Pending(StateOf(n.disk, id)) && id !in ids[1..] ensures ReasonNow(n, id).None? {
        ExpireFreshens(w, ids[0], id);
        assert ids == [ids[0]] + ids[1..];
      }
      ExpireUp(w, ids[0]);
      ExpireAllFreshens(n, ids[1..]);
    }
  }

  lemma ExpireFreshens(w: World, x: string, id: string)
    requires Has(Expire(w, x).disk, id) && Pending(StateOf(Expire(w, x).disk, id))
    ensures Has(w.disk, id) && Pending(StateOf(w.disk, id)) && ReasonNow(Expire(w, x), id) == ReasonNow(w, id)
    ensures x == id ==> ReasonNow(w, id).None?
  {
    hide Job.InvalidReason;
    if x == id && ReasonNow(w, id).Some? { LapsedIsDead(w.disk, id, ReasonNow(w, id).value); }
  }

  lemma LapsedIsDead(d: Disk, id: string, reason: Reason)
    requires id in d.jobs
    ensures InState(SetState(d, id, Lapse(reason), reason), id, Lapse(reason)) && !Pending(Lapse(reason))
  {
  }

  lemma KindredReason(w: World, n: World, id: string, now: nat)
    requires Kindred(w, n) && Has(n.disk, id) && Pending(StateOf(n.disk, id))
    ensures Has(w.disk, id) && Pending(StateOf(w.disk, id)) && ReasonAt(n, id, now) == ReasonAt(w, id, now)
  {
    hide Job.InvalidReason;
    assert Akin(w.disk.jobs[id], n.disk.jobs[id]);
  }

  lemma KindredFresh(w: World, n: World, now: nat)
    requires Fresh(w, now) && Kindred(w, n)
    ensures Fresh(n, now)
  {
    hide ReasonAt, Kindred;
    forall id | Has(n.disk, id) && Pending(StateOf(n.disk, id)) ensures ReasonAt(n, id, now).None? {
      KindredReason(w, n, id, now);
    }
  }

  lemma PendingListed(d: Disk, id: string)
    requires OrderOk(d) && id in d.jobs && Pending(StateOf(d, id))
    ensures id in PendingIds(d)
  {
    OrderDistinct(d);
    InStatesSelects(d, d.order, {Queued, Running});
  }

  /** After a tick every queued or running job is valid at the reading the tick began with: right clock,
      current generation, evidence and deadline not lapsed. */
  lemma TickLeavesNoneLapsed(cfg: Config, w: World, ranked: nat, clock: nat -> nat)
    requires cfg.Valid() && Inv(cfg, w) && w.up && !w.mem.closed
    ensures Fresh(Tick(cfg, w, ranked, clock), w.mem.now)
  {
    hide Inv, ExpireAll, ScanQueue, ServeAll, PendingIds, QueuedIds, Turns, Kindred, Later;
    InvOrder(cfg, w);
    forall id | Has(w.disk, id) && Pending(StateOf(w.disk, id)) ensures id in PendingIds(w.disk) {
      PendingListed(w.disk, id);
    }
    ExpireAllFreshens(w, PendingIds(w.disk));
    hide Fresh;
    var w1, v := ExpireAll(w, PendingIds(w.disk)), Lapsed(w, ranked);
    ExpireAllUp(w, PendingIds(w.disk));
    LaterKindred(w1, ranked);
    KindredFresh(w1, v, w.mem.now);
    KindredHas(w1, v, "");
    ScanKindred(cfg, v, QueuedIds(v.disk));
    KindredFresh(v, Scanned(cfg, w, ranked).world, w.mem.now);
    KindredHas(v, Scanned(cfg, w, ranked).world, "");
    ServeAllIsRun(cfg, Scanned(cfg, w, ranked).world, Turns(cfg, w, ranked), clock);
    KindredFresh(Scanned(cfg, w, ranked).world, Tick(cfg, w, ranked, clock), w.mem.now);
  }

  /** The clock as it stands after n services. */
  function Reading(now: nat, clock: nat -> nat, n: nat): nat {
    if n == 0 then now
    else if Reading(now, clock, n - 1) <= clock(n - 1) then clock(n - 1) else Reading(now, clock, n - 1)
  }

  lemma ServeKeepsClock(cfg: Config, w: World, id: string)
    requires cfg.Valid()
    ensures Serve(cfg, w, id).mem.now == w.mem.now
  {
    ServeBeside(cfg, w, id);
  }

  lemma {:induction false} ServeAllClock(cfg: Config, w: World, ids: seq<string>, clock: nat -> nat)
    requires cfg.Valid()
    ensures ServeAll(cfg, w, ids, clock).mem.now == Reading(w.mem.now, clock, |ids|)
    decreases |ids|
  {
    hide Serve;
    if ids != [] {
      var n := |ids| - 1;
      ServeAllClock(cfg, w, ids[..n], clock);
      ServeKeepsClock(cfg, Later(ServeAll(cfg, w, ids[..n], clock), clock(n)), ids[n]);
    }
  }

  lemma ServedIsUsable(cfg: Config, w: World, id: string)
    requires cfg.Valid() && Servable(w, id)
    ensures var n := Serve(cfg, w, id); Has(n.disk, id) && (Pending(StateOf(n.disk, id)) ==> ReasonNow(w, id).None?)
  {
    hide Job.InvalidReason, DepsDone, Cache.Get, KeyFor, Plus, CanReserve, Place;
    if ReasonNow(w, id).Some? { LapsedIsDead(w.disk, id, ReasonNow(w, id).value); }
    ServeKindred(cfg, w, id);
  }

  /** Each job still pending after its turn was usable at the reading made for it. */
  lemma {:induction false} ServeAllChecks(cfg: Config, w: World, ids: seq<string>, clock: nat -> nat, i: nat)
    requires cfg.Valid() && w.up && Distinct(ids) && i < |ids| && forall x :: x in ids ==> Servable(w, x)
    ensures var n := ServeAll(cfg, w, ids, clock);
            Has(n.disk, ids[i]) && (Pending(StateOf(n.disk, ids[i])) ==>
              ReasonAt(n, ids[i], Reading(w.mem.now, clock, i + 1)).None?)
    decreases |ids|
  {
    hide Serve, Servable, Kindred, Job.InvalidReason, Reading;
    var n := |ids| - 1;
    var v, id := ServeAll(cfg, w, ids[..n], clock), ids[i];
    var u, z := Later(v, clock(n)), ServeAll(cfg, w, ids, clock);
    LaterKindred(v, clock(n));
    ServeKindred(cfg, u, ids[n]);
    if i == n {
      StillServable(cfg, w, ids, clock, n);
      ServedIsUsable(cfg, u, id);
      ServeAllClock(cfg, w, ids, clock);
      ServeKeepsClock(cfg, u, id);
      if Pending(StateOf(z.disk, id)) { KindredReason(u, z, id, Reading(w.mem.now, clock, i + 1)); }
    } else {
      forall x | x in ids[..n] ensures x in ids { }
      ServeAllChecks(cfg, w, ids[..n], clock, i);
      KindredOn(v, u, z);
      KindredHas(v, z, id);
      if Pending(StateOf(z.disk, id)) { KindredReason(v, z, id, Reading(w.mem.now, clock, i + 1)); }
    }
  }

  /** A tick leaves a job it had a turn for pending only if it was usable at the reading made for that turn. */
  lemma TickChecksEach(cfg: Config, w: World, ranked: nat, clock: nat -> nat, i: nat)
    requires cfg.Valid() && Inv(cfg, w) && w.up && !w.mem.closed && i < |Turns(cfg, w, ranked)|
    ensures var n, id := Tick(cfg, w, ranked, clock), Turns(cfg, w, ranked)[i];
            Has(n.disk, id) && (Pending(StateOf(n.disk, id)) ==>
              ReasonAt(n, id, Reading(Lapsed(w, ranked).mem.now, clock, i + 1)).None?)
  {
    hide Inv, Grows, Exec, Kindred, Lapsed, ScanQueue, ServeAll, Turns, QueuedIds, Has, Reading, Job.InvalidReason,
         Expiries, Servable;
    var v := Lapsed(w, ranked);
    LapsedIsRun(cfg, w, ranked);
    TurnsServable(cfg, w, ranked);
    ServeAllChecks(cfg, Scanned(cfg, w, ranked).world, Turns(cfg, w, ranked), clock, i);
  }

  // ---- one service and the other jobs ----

  /** Job x was queued and is the only one whose row changed; slots in use only grew. */
  ghost predicate Beside(w: World, n: World, x: string) {
    && n.disk.sessions == w.disk.sessions && n.mem.now == w.mem.now && n.mem.closed == w.mem.closed
    && n.disk.quarantined == w.disk.quarantined && n.disk.jobs.Keys == w.disk.jobs.Keys
    && (forall id :: id in w.disk.jobs && id != x ==> n.disk.jobs[id] == w.disk.jobs[id])
    && (n.disk.jobs == w.disk.jobs || InState(w.disk, x, Queued))
    && (forall p :: Used(w.mem.poolUse, p) <= Used(n.mem.poolUse, p))
    && (forall e :: Used(w.mem.endpointUse, e) <= Used(n.mem.endpointUse, e))
  }

  lemma WriteBeside(w: World, x: string, r: Receipt, n: World)
    requires InState(w.disk, x, Queued) && n.disk.jobs == SetReceipt(w.disk, x, r).jobs
    requires n.disk.sessions == w.disk.sessions && n.mem.now == w.mem.now && n.mem.closed == w.mem.closed
    requires n.disk.quarantined == w.disk.quarantined
    requires forall p :: Used(w.mem.poolUse, p) <= Used(n.mem.poolUse, p)
    requires forall e :: Used(w.mem.endpointUse, e) <= Used(n.mem.endpointUse, e)
    ensures Beside(w, n, x)
  {
  }

  lemma SelfBeside(w: World, x: string)
    ensures Beside(w, w, x)
  {
  }

  lemma PlusGrows(use: map<string, nat>, k: string)
    ensures forall p :: Used(use, p) <= Used(Plus(use, k), p)
  {
  }

  lemma PlacedBeside(cfg: Config, w: World, id: string)
    requires cfg.Valid() && Servable(w, id)
    ensures Beside(w, Placed(cfg, w, id), id)
  {
    hide Job.InvalidReason, DepsDone, Place, CanReserve, Beside, KeyFor, Plus, Used;
    SelfBeside(w, id);
    var r, n, place := w.disk.jobs[id].receipt, Placed(cfg, w, id), Place(cfg, w, id);
    if place.Chosen? {
      if !CanReserve(w.disk, place.endpoint.reserve) {
        WriteBeside(w, id, r.(state := Rejected, reason := Some(AttemptOrCostCeiling)), n);
      } else if id !in w.disk.attempts {
        PlusGrows(w.mem.poolUse, place.endpoint.pool);
        PlusGrows(w.mem.endpointUse, place.endpoint.id);
        WriteBeside(w, id, Started(r, place.endpoint, w.mem.now), n);
      }
    }
  }

  lemma LookedBeside(cfg: Config, w: World, n: World, id: string)
    requires id in w.disk.jobs && Beside(Looked(cfg, w, id), n, id)
    ensures Beside(w, n, id)
  {
    hide Cache.Get, KeyFor;
  }

  lemma ServeBeside(cfg: Config, w: World, id: string)
    requires cfg.Valid()
    ensures Beside(w, Serve(cfg, w, id), id)
  {
    hide Job.InvalidReason, DepsDone, Cache.Get, Place, CanReserve, Beside, Looked, Placed, KeyFor, Plus, Used;
    SelfBeside(w, id);
    if Servable(w, id) {
      var r, reason := w.disk.jobs[id].receipt, ReasonNow(w, id);
      if reason.Some? {
        WriteBeside(w, id, r.(state := Lapse(reason.value), reason := reason), Serve(cfg, w, id));
      } else {
        FreshBeside(cfg, w, id);
      }
    }
  }

  lemma FreshBeside(cfg: Config, w: World, id: string)
    requires cfg.Valid() && Servable(w, id) && ReasonNow(w, id).None?
    ensures Beside(w, Serve(cfg, w, id), id)
  {
    hide Job.InvalidReason, DepsDone, Cache.Get, Beside, Placed, KeyFor, Serve;
    var lookup := Cache.Get(cfg.limits, w.mem.cache, KeyFor(cfg, w.disk.jobs[id].job), w.mem.now);
    if lookup.hit.Some? {
      HitIsFinished(cfg, w, id);
      WriteBeside(w, id, Finished(w.disk.jobs[id].receipt, lookup.hit.value, w.mem.now), Serve(cfg, w, id));
    } else {
      MissIsPlaced(cfg, w, id);
      PlacedBeside(cfg, Looked(cfg, w, id), id);
      LookedBeside(cfg, w, Serve(cfg, w, id), id);
    }
  }

  /** Serving or pruning one queued job leaves another servable. */
  lemma ServableBeside(w: World, n: World, x: string, id: string)
    requires Beside(w, n, x) && x != id && Servable(w, id)
    ensures Servable(n, id)
  {
    forall dep | dep in w.disk.jobs[id].job.dependencies ensures dep in n.disk.jobs && Delivered(StateOf(n.disk, dep)) {
      assert dep in w.disk.jobs && Delivered(StateOf(w.disk, dep));
    }
  }

  lemma PruneBeside(w: World, x: string)
    ensures Beside(w, Prune(w, x), x)
  {
    hide DepsAlive, Used, Beside;
    SelfBeside(w, x);
    if Prune(w, x) != w {
      WriteBeside(w, x, w.disk.jobs[x].receipt.(state := Rejected, reason := Some(DependencyFailed)), Prune(w, x));
    }
  }

  lemma QueuedBeside(w: World, n: World, x: string, id: string)
    requires Beside(w, n, x) && x != id && InState(w.disk, id, Queued)
    ensures InState(n.disk, id, Queued) && (Has(w.disk, id) ==> Has(n.disk, id))
  {
  }

  /** While the scan runs, listed jobs are servable and those still to come are queued. */
  ghost predicate ScanOk(s: Scan, rest: seq<string>) {
    && !s.world.mem.closed
    && (forall k :: k in s.ready ==> Servable(s.world, k.item) && k.item !in rest)
    && (forall x :: x in rest ==> InState(s.world.disk, x, Queued) && Has(s.world.disk, x))
  }

  lemma ScanOneOk(cfg: Config, s: Scan, ids: seq<string>)
    requires ids != [] && Distinct(ids) && ScanOk(s, ids)
    ensures ScanOk(ScanOne(cfg, s, ids[0]), ids[1..])
  {
    hide Servable, DepsAlive, DepsDone, Has, InState, CandidateOf, RankOf, Prune, Beside;
    var id, n := ids[0], ScanOne(cfg, s, ids[0]);
    assert ids == [id] + ids[1..] && id in ids && id !in ids[1..];
    PruneBeside(s.world, id);
    SelfBeside(s.world, id);
    assert n.world == s.world || n.world == Prune(s.world, id);
    assert n.ready == s.ready || (n.ready[..|s.ready|] == s.ready && n.ready[|s.ready|].item == id
        && |n.ready| == |s.ready| + 1 && n.world == s.world && Servable(s.world, id)) by {
      NewlyReady(cfg, s, id);
    }
    forall x | x in ids[1..] ensures InState(n.world.disk, x, Queued) && Has(n.world.disk, x) {
      QueuedBeside(s.world, n.world, id, x);
    }
    forall k | k in n.ready ensures Servable(n.world, k.item) && k.item !in ids[1..] {
      if k in s.ready {
        assert k.item !in ids && k.item != id;
        ServableBeside(s.world, n.world, id, k.item);
      }
    }
    assert n.world.mem.closed == s.world.mem.closed by { ClosedBeside(s.world, n.world, id); }
  }

  lemma ClosedBeside(w: World, n: World, x: string)
    requires Beside(w, n, x)
    ensures n.mem.closed == w.mem.closed
  {
  }

  lemma NewlyReady(cfg: Config, s: Scan, id: string)
    requires InState(s.world.disk, id, Queued) && !s.world.mem.closed
    ensures var n := ScanOne(cfg, s, id);
            n.ready == s.ready || (|n.ready| == |s.ready| + 1 && n.ready[..|s.ready|] == s.ready
                && n.ready[|s.ready|].item == id
                                   && n.world == s.world && Servable(s.world, id))
  {
    hide CandidateOf, RankOf, Prune, DepsAlive;
  }

  // ---- what is left waiting ----

  /** No endpoint can take the job now. */
  ghost predicate Unplaceable(cfg: Config, w: World, id: string)
    requires cfg.Valid() && Has(w.disk, id)
  {
    forall e :: e in cfg.endpoints ==> !CanTake(cfg, w, id, e)
  }

  lemma NoPlaceUnplaceable(cfg: Config, w: World, id: string)
    requires cfg.Valid() && Has(w.disk, id) && Place(cfg, w, id).NoEndpoint?
    ensures Unplaceable(cfg, w, id)
  {
    hide CanTake, Place, IsPlace;
    PlaceMeans(cfg, w, id);
  }

  lemma UnplaceableBeside(cfg: Config, w: World, n: World, x: string, id: string)
    requires cfg.Valid() && Has(w.disk, id) && Unplaceable(cfg, w, id) && Beside(w, n, x) && x != id
    ensures Has(n.disk, id) && Unplaceable(cfg, n, id)
  {
    hide InTime;
    forall e | e in cfg.endpoints ensures !CanTake(cfg, n, id, e) { assert !CanTake(cfg, w, id, e); }
  }

  lemma PlacedStuck(cfg: Config, w: World, id: string)
    requires cfg.Valid() && Servable(w, id) && id !in w.disk.attempts && InState(Placed(cfg, w, id).disk, id, Queued)
    ensures Placed(cfg, w, id) == w && Place(cfg, w, id).NoEndpoint?
  {
    hide DepsDone, KeyFor, CanReserve, Place, SetState, Dispatch;
    RejectedIs(w.disk, id);
    if Place(cfg, w, id).Chosen? { RunningIs(w, id, Place(cfg, w, id).endpoint, KeyFor(cfg, w.disk.jobs[id].job)); }
  }

  lemma RejectedIs(d: Disk, id: string)
    requires id in d.jobs
    ensures InState(SetState(d, id, Rejected, AttemptOrCostCeiling), id, Rejected)
  {
  }

  lemma RunningIs(w: World, id: string, ep: Endpoint, key: Option<CacheKey>)
    requires id in w.disk.jobs
    ensures InState(Dispatch(w, id, ep, key).disk, id, Running)
  {
  }

  lemma LapsedLeaves(cfg: Config, w: World, id: string)
    requires cfg.Valid() && Servable(w, id) && InState(Serve(cfg, w, id).disk, id, Queued)
    ensures ReasonNow(w, id).None?
    ensures Cache.Get(cfg.limits, w.mem.cache, KeyFor(cfg, w.disk.jobs[id].job), w.mem.now).hit.None?
  {
    hide Job.InvalidReason, DepsDone, Cache.Get, KeyFor, Plus, CanReserve, Place;
  }

  /** A job just served is either off the queue or unplaceable. */
  lemma ServedOrStuck(cfg: Config, w: World, id: string)
    requires cfg.Valid() && Inv(cfg, w) && w.up && Servable(w, id) && InState(Serve(cfg, w, id).disk, id, Queued)
    ensures Has(Serve(cfg, w, id).disk, id) && Unplaceable(cfg, Serve(cfg, w, id), id)
  {
    hide Inv, Unplaceable, Serve, Placed, Cache.Get, KeyFor, Place, DepsDone;
    NoPrimaryKeyClash(cfg, w, id);
    LapsedLeaves(cfg, w, id);
    MissIsPlaced(cfg, w, id);
    PlacedStuck(cfg, Looked(cfg, w, id), id);
    NoPlaceUnplaceable(cfg, Looked(cfg, w, id), id);
  }

  lemma LaterUnplaceable(cfg: Config, w: World, id: string, now: nat)
    requires cfg.Valid() && Has(w.disk, id) && Unplaceable(cfg, w, id)
    ensures Unplaceable(cfg, Later(w, now), id)
  {
    forall e | e in cfg.endpoints ensures !CanTake(cfg, Later(w, now), id, e) { assert !CanTake(cfg, w, id, e); }
  }

  lemma LaterServable(w: World, id: string, now: nat)
    requires Servable(w, id)
    ensures Servable(Later(w, now), id)
  {
  }

  /** A job waiting for its turn stays servable. */
  lemma {:induction false} StillServable(cfg: Config, w: World, ids: seq<string>, clock: nat -> nat, n: nat)
    requires cfg.Valid() && n < |ids| && Distinct(ids) && forall x :: x in ids ==> Servable(w, x)
    ensures Servable(ServeAll(cfg, w, ids[..n], clock), ids[n])
    ensures Servable(Later(ServeAll(cfg, w, ids[..n], clock), clock(n)), ids[n])
    decreases n
  {
    hide Serve, Servable;
    StaysServable(cfg, w, ids, clock, n, n);
    LaterServable(ServeAll(cfg, w, ids[..n], clock), ids[n], clock(n));
  }

  lemma {:induction false} StaysServable(cfg: Config, w: World, ids: seq<string>, clock: nat -> nat, n: nat, k: nat)
    requires cfg.Valid() && n <= k < |ids| && Distinct(ids) && forall x :: x in ids ==> Servable(w, x)
    ensures Servable(ServeAll(cfg, w, ids[..n], clock), ids[k])
    decreases n
  {
    hide Serve, Servable, Beside, Later;
    if n > 0 {
      assert ids[..n][..n - 1] == ids[..n - 1];
      var u := Later(ServeAll(cfg, w, ids[..n - 1], clock), clock(n - 1));
      StaysServable(cfg, w, ids, clock, n - 1, k);
      LaterServable(ServeAll(cfg, w, ids[..n - 1], clock), ids[k], clock(n - 1));
      ServeBeside(cfg, u, ids[n - 1]);
      ServableBeside(u, Serve(cfg, u, ids[n - 1]), ids[n - 1], ids[k]);
    }
  }

  lemma {:induction false} ServeAllKeeps(cfg: Config, w: World, ids: seq<string>, clock: nat -> nat)
    requires cfg.Valid() && Inv(cfg, w) && w.up
    ensures Inv(cfg, ServeAll(cfg, w, ids, clock)) && ServeAll(cfg, w, ids, clock).up
    decreases |ids|
  {
    hide Inv, Grows, Exec, ServeAll;
    ServeAllIsRun(cfg, w, ids, clock);
    RunKeeps(cfg, w, Services(ids, clock));
    assert ServeAll(cfg, w, ids, clock).up by { KindredHas(w, ServeAll(cfg, w, ids, clock), ""); }
  }

  lemma QueuedBefore(w: World, n: World, x: string, id: string)
    requires Beside(w, n, x) && x != id && InState(n.disk, id, Queued)
    ensures InState(w.disk, id, Queued)
  {
  }

  /** A tick leaves a ready job in the queue only if no endpoint of its model can take it even now. */
  lemma {:induction false} ServeAllIsGreedy(cfg: Config, w: World, ids: seq<string>, clock: nat -> nat, id: string)
    requires cfg.Valid() && Inv(cfg, w) && w.up && Distinct(ids) && id in ids
    requires forall x :: x in ids ==> Servable(w, x)
    requires InState(ServeAll(cfg, w, ids, clock).disk, id, Queued)
    ensures Has(ServeAll(cfg, w, ids, clock).disk, id) && Unplaceable(cfg, ServeAll(cfg, w, ids, clock), id)
    decreases |ids|
  {
    hide Inv, Serve, Servable, Unplaceable, Beside, Kindred, Has, InState, Later;
    var n := |ids| - 1;
    var x, v := ids[n], ServeAll(cfg, w, ids[..n], clock);
    var u := Later(v, clock(n));
    assert ids == ids[..n] + [x];
    ServeAllKeeps(cfg, w, ids[..n], clock);
    LaterKeeps(cfg, v, clock(n));
    LaterKindred(v, clock(n));
    KindredHas(v, u, id);
    if id == x {
      StillServable(cfg, w, ids, clock, n);
      ServedOrStuck(cfg, u, id);
    } else {
      ServeBeside(cfg, u, x);
      QueuedBefore(u, Serve(cfg, u, x), x, id);
      LaterQueued(v, id, clock(n));
      ServeAllIsGreedy(cfg, w, ids[..n], clock, id);
      LaterUnplaceable(cfg, v, id, clock(n));
      UnplaceableBeside(cfg, u, Serve(cfg, u, x), x, id);
    }
  }

  lemma LaterQueued(w: World, id: string, now: nat)
    ensures InState(Later(w, now).disk, id, Queued) == InState(w.disk, id, Queued)
  {
  }

  lemma {:induction false} ScanQueueOk(cfg: Config, w: World, ids: seq<string>, n: nat)
    requires n <= |ids| && Distinct(ids) && ScanOk(Scan(w, []), ids)
    ensures ScanOk(ScanQueue(cfg, w, ids[..n]), ids[n..])
    decreases n
  {
    hide ScanOk, ScanOne;
    if n == 0 {
      assert ids[..0] == [] && ids[0..] == ids;
    } else {
      ScanQueueOk(cfg, w, ids, n - 1);
      assert ids[..n][..n - 1] == ids[..n - 1];
      assert ids[n - 1..][0] == ids[n - 1] && ids[n - 1..][1..] == ids[n..];
      ScanOneOk(cfg, ScanQueue(cfg, w, ids[..n - 1]), ids[n - 1..]);
    }
  }

  /** The list a tick serves: each ready job once, all servable. */
  lemma ServedList(cfg: Config, w: World)
    requires cfg.Valid() && Inv(cfg, w) && !w.mem.closed
    ensures var ids := QueuedIds(w.disk);
            var s := ScanQueue(cfg, w, ids);
            && Distinct(Items(Sort(s.ready)))
            && (forall x :: x in Items(Sort(s.ready)) <==> exists k :: k in s.ready && k.item == x)
            && (forall x :: x in Items(Sort(s.ready)) ==> Servable(s.world, x))
  {
    hide Inv, Servable, ScanQueue, Sort, Items, QueuedIds, Has, InState;
    var ids := QueuedIds(w.disk);
    var s := ScanQueue(cfg, w, ids);
    InvOrder(cfg, w);
    QueuedListed(w.disk);
    forall x | x in ids ensures InState(w.disk, x, Queued) && Has(w.disk, x) { QueuedHave(cfg, w, x); }
    ScanQueueOk(cfg, w, ids, |ids|);
    assert ids[..|ids|] == ids;
    ScanRanks(cfg, w, ids);
    SortDistinct(s.ready);
    ServedDistinct(cfg, w, ids, s.ready);
  }

  lemma ServedDistinct(cfg: Config, w: World, ids: seq<string>, ready: seq<Keyed<string>>)
    requires ReadyOk(cfg, w, ids, ready)
    ensures Distinct(Items(Sort(ready)))
    ensures forall x :: x in Items(Sort(ready)) <==> exists k :: k in ready && k.item == x
  {
    hide Sort, CandidateOf, RankOf, Has;
    SortDistinct(ready);
    var ks, items := Sort(ready), Items(Sort(ready));
    forall i, j | 0 <= i < j < |items| ensures items[i] != items[j] {
      assert ks[i] in ready && ks[j] in ready;
    }
    forall k | k in ready ensures k.item in items {
      assert k in ks;
      var i :| 0 <= i < |ks| && ks[i] == k;
      assert items[i] == k.item;
    }
  }

  lemma TurnsServable(cfg: Config, w: World, ranked: nat)
    requires cfg.Valid() && Inv(cfg, w) && w.up && !w.mem.closed
    ensures var turns, s := Turns(cfg, w, ranked), Scanned(cfg, w, ranked);
            && Distinct(turns) && (forall x :: x in turns ==> Servable(s.world, x))
            && (forall k :: k in s.ready ==> k.item in turns)
            && Inv(cfg, s.world) && s.world.up && s.world.mem == Lapsed(w, ranked).mem
  {
    hide Inv, Grows, Exec, Servable, Lapsed, ScanQueue, Sort, Items, QueuedIds, Kindred, Expiries;
    var v := Lapsed(w, ranked);
    LapsedIsRun(cfg, w, ranked);
    ServedList(cfg, v);
    forall x | x in QueuedIds(v.disk) ensures Has(v.disk, x) { QueuedHave(cfg, v, x); }
    ScanIsRun(cfg, v, QueuedIds(v.disk));
    RunKeeps(cfg, v, Prunings(QueuedIds(v.disk)));
    ScanKindred(cfg, v, QueuedIds(v.disk));
    KindredHas(v, Scanned(cfg, w, ranked).world, "");
  }
}
