/** What a ready job's turn answers: lapsed, given a cached result, placed, refused money, or left waiting. */
module Service {
  import opened Basics
  import opened Order
  import opened Contracts
  import opened Scheduling
  import opened Ledger
  import opened Coordinator
  import opened Placing
  import opened Invariant
  import opened TaskSteps
  import opened Runs
  import opened Answers
  import Cache

  // ---- cached results ----

  /** The two jobs ask for the same work on the same evidence in the same place and time. */
  predicate SameWork(a: Job, b: Job) {
    && a.tenant == b.tenant && a.sessionId == b.sessionId && a.epoch == b.epoch && a.taskRevision == b.taskRevision
    && a.clockId == b.clockId && a.model == b.model && a.operation == b.operation && a.workload == b.workload
    && a.kind == b.kind && a.observations == b.observations && a.snapshot == b.snapshot && a.maxAge == b.maxAge
    && a.maxUncertainty == b.maxUncertainty && a.payload == b.payload && a.cacheable == b.cacheable
  }

  predicate Reusable(cfg: Config, job: Job) { job.model in cfg.models && job.cacheable && job.kind == Historical }

  /** Two jobs share a cache key exactly if both may be cached, the model's contract is the same and they
      ask for the same work, whatever their ids, deadlines, priorities, sites and dependencies. */
  lemma KeyMeans(cfg: Config, a: Job, b: Job)
    ensures KeyFor(cfg, a).Some? <==> Reusable(cfg, a)
    ensures Reusable(cfg, a) && Reusable(cfg, b) ==>
              (KeyFor(cfg, a) == KeyFor(cfg, b) <==> cfg.models[a.model] == cfg.models[b.model] && SameWork(a, b))
  {
    var x, y := Work(a), Work(b);
    if SameWork(a, b) { assert x == y; }
    if x == y {
      assert x.tenant == y.tenant && x.sessionId == y.sessionId && x.epoch == y.epoch && x.taskRevision == y.taskRevision;
      assert x.clockId == y.clockId && x.model == y.model && x.operation == y.operation && x.workload == y.workload;
      assert x.kind == y.kind && x.observations == y.observations && x.snapshot == y.snapshot && x.maxAge == y.maxAge;
      assert x.maxUncertainty == y.maxUncertainty && x.payload == y.payload && x.cacheable == y.cacheable;
    }
  }

  /** A resident result for the job's work, still young enough. */
  ghost predicate Cached(cfg: Config, w: World, id: string, item: Cache.Item)
    requires id in w.disk.jobs
  {
    && item in w.mem.cache && KeyFor(cfg, w.disk.jobs[id].job) == Some(item.key)
    && w.mem.now - item.computed < cfg.limits.ttl
  }

  ghost predicate Uncached(cfg: Config, w: World, id: string)
    requires id in w.disk.jobs
  {
    forall item :: item in w.mem.cache ==> !Cached(cfg, w, id, item)
  }

  lemma LookupMeans(cfg: Config, w: World, id: string)
    requires id in w.disk.jobs && Cache.DistinctKeys(w.mem.cache)
    ensures var hit := Cache.Get(cfg.limits, w.mem.cache, KeyFor(cfg, w.disk.jobs[id].job), w.mem.now).hit;
            && (hit.None? <==> Uncached(cfg, w, id))
            && forall item :: item in w.mem.cache && Cached(cfg, w, id, item) ==>
                 hit == Some(Cache.Hit(item.payload, item.computed))
  {
    hide KeyFor;
    var key := KeyFor(cfg, w.disk.jobs[id].job);
    if key.Some? {
      Cache.HitIff(cfg.limits, w.mem.cache, key.value, w.mem.now);
      hide Cache.Get, Cache.DistinctKeys;
      forall item | item in w.mem.cache && item.key == key.value && w.mem.now - item.computed < cfg.limits.ttl
        ensures Cached(cfg, w, id, item) { }
    }
  }

  // ---- where it goes ----

  lemma PreferredIsTotal(x: Endpoint, y: Endpoint, placement: Placement)
    requires x.id != y.id
    ensures Preferred(x, y, placement) || Preferred(y, x, placement)
  {
    StrTotal(x.id, y.id);
  }

  /** There is one place at most. */
  lemma PlaceIsUnique(cfg: Config, w: World, id: string, e: Endpoint, f: Endpoint)
    requires cfg.Valid() && Has(w.disk, id) && IsPlace(cfg, w, id, e) && IsPlace(cfg, w, id, f)
    ensures e == f
  {
    hide Preferred;
    if e.id != f.id {
      PreferredIsTotal(e, f, cfg.placement);
    }
  }

  lemma PlaceIs(cfg: Config, w: World, id: string, e: Endpoint)
    requires cfg.Valid() && Has(w.disk, id) && IsPlace(cfg, w, id, e)
    ensures Place(cfg, w, id) == Chosen(e)
  {
    hide Place, CanTake, Preferred;
    PlaceMeans(cfg, w, id);
    assert e in cfg.endpoints && CanTake(cfg, w, id, e) by { TakerIsConfigured(cfg, w, id, e); }
    if Place(cfg, w, id).Chosen? { PlaceIsUnique(cfg, w, id, e, Place(cfg, w, id).endpoint); }
  }

  lemma TakerIsConfigured(cfg: Config, w: World, id: string, e: Endpoint)
    requires cfg.Valid() && Has(w.disk, id) && CanTake(cfg, w, id, e)
    ensures e in cfg.endpoints
  {
  }

  // ---- a turn ----

  /** A queued job at a running coordinator whose dependencies have all succeeded. */
  ghost predicate HasTurn(w: World, id: string) {
    && w.up && !w.mem.closed && Has(w.disk, id) && StateOf(w.disk, id) == Queued
    && forall x :: x in w.disk.jobs[id].job.dependencies ==> x in w.disk.jobs && StateOf(w.disk, x) in {Succeeded, Consumed}
  }

  lemma TurnIs(cfg: Config, w: World, id: string)
    requires cfg.Valid() && HasTurn(w, id)
    ensures Servable(w, id) && Apply(cfg, w, ServeStep(id)) == Serve(cfg, w, id)
  {
    hide Serve;
  }

  lemma CacheDistinct(cfg: Config, w: World)
    requires Inv(cfg, w) && w.up
    ensures Cache.DistinctKeys(w.mem.cache)
  {
  }

  /** A job no longer usable lapses at its turn. */
  lemma TurnLapses(cfg: Config, w: World, id: string)
    requires cfg.Valid() && HasTurn(w, id) && !UsableNow(w, id)
    ensures var n := Apply(cfg, w, ServeStep(id));
            && OthersKept(w.disk, n.disk, id) && n.disk.attempts == w.disk.attempts && n.mem == w.mem
            && InState(n.disk, id, if AbreastNow(w, id) then Expired else Stale)
  {
    hide UsableNow, AbreastNow, HasTurn, Apply, ReasonNow, Lapse, Servable, SetState;
    TurnIs(cfg, w, id);
    assert Has(w.disk, id) by { TurnHas(w, id); }
    ReasonMeans(w, id);
    SetStateIs(w.disk, id, Lapse(ReasonNow(w, id).value), ReasonNow(w, id).value);
  }

  lemma TurnHas(w: World, id: string)
    requires HasTurn(w, id)
    ensures Has(w.disk, id) && w.up && InState(w.disk, id, Queued)
  {
  }

  /** A usable job with a cached result is given it, at once and at no charge. */
  lemma TurnHits(cfg: Config, w: World, id: string, item: Cache.Item)
    requires cfg.Valid() && Reachable(cfg, w) && HasTurn(w, id) && UsableNow(w, id) && Cached(cfg, w, id, item)
    ensures var n := Apply(cfg, w, ServeStep(id));
            && OthersKept(w.disk, n.disk, id) && n.disk.attempts == w.disk.attempts && n.mem.tasks == w.mem.tasks
            && InState(n.disk, id, Succeeded)
            && n.disk.jobs[id].receipt.prediction == Some(item.payload) && n.disk.jobs[id].receipt.cacheHit
            && n.disk.jobs[id].receipt.computed == Some(item.computed) && n.disk.jobs[id].receipt.completed == Some(w.mem.now)
  {
    hide Inv, Reachable, UsableNow, HasTurn, Apply, ReasonNow, Servable, Serve, KeyFor, Cache.Get, Cache.DistinctKeys;
    ReachableInv(cfg, w);
    TurnIs(cfg, w, id);
    TurnHas(w, id);
    ReasonMeans(w, id);
    CacheDistinct(cfg, w);
    LookupMeans(cfg, w, id);
    HitIsFinished(cfg, w, id);
  }

  lemma TurnMisses(cfg: Config, w: World, id: string)
    requires cfg.Valid() && Reachable(cfg, w) && HasTurn(w, id) && UsableNow(w, id) && Uncached(cfg, w, id)
    ensures Apply(cfg, w, ServeStep(id)) == Placed(cfg, Looked(cfg, w, id), id)
    ensures id !in w.disk.attempts && Servable(Looked(cfg, w, id), id)
  {
    hide Inv, Reachable, UsableNow, HasTurn, Apply, ReasonNow, Servable, Serve, KeyFor, Cache.Get, Cache.DistinctKeys, Placed;
    ReachableInv(cfg, w);
    TurnIs(cfg, w, id);
    TurnHas(w, id);
    ReasonMeans(w, id);
    CacheDistinct(cfg, w);
    LookupMeans(cfg, w, id);
    NoPrimaryKeyClash(cfg, w, id);
    MissIsPlaced(cfg, w, id);
  }

  /** Without a cached result it waits exactly if no endpoint can take it. */
  lemma TurnWaits(cfg: Config, w: World, id: string)
    requires cfg.Valid() && Reachable(cfg, w) && HasTurn(w, id) && UsableNow(w, id) && Uncached(cfg, w, id)
    requires forall e :: e in cfg.endpoints ==> !CanTake(cfg, w, id, e)
    ensures var n := Apply(cfg, w, ServeStep(id)); n.disk == w.disk && n.mem.tasks == w.mem.tasks
  {
    hide Reachable, UsableNow, HasTurn, Apply, Servable, KeyFor, Cache.Get, CanTake, Place;
    TurnMisses(cfg, w, id);
    TurnHas(w, id);
    PlaceMeans(cfg, w, id);
    LookedPlace(cfg, w, id);
  }

  lemma LookedPlace(cfg: Config, w: World, id: string)
    requires cfg.Valid() && Has(w.disk, id)
    ensures Has(Looked(cfg, w, id).disk, id) && Place(cfg, Looked(cfg, w, id), id) == Place(cfg, w, id)
  {
    hide Choose, Cache.Get, KeyFor, ForModel, Job.Latest;
  }

  /** One more attempt fits both caps: their number, and known plus held spend with the endpoint's reserve. */
  ghost predicate Affordable(d: Disk, e: Endpoint) {
    |d.attempts| < d.maxAttempts && Known(d) + Held(d) + e.reserve <= d.maxMicrousd
  }

  /** The job runs at the endpoint: receipt, held reserve, task and counters. */
  ghost predicate RunsAt(cfg: Config, w: World, n: World, id: string, e: Endpoint)
    requires id in w.disk.jobs
  {
    && InState(n.disk, id, Running)
    && n.disk.jobs[id].receipt.endpoint == Some(e.id) && n.disk.jobs[id].receipt.started == Some(w.mem.now)
    && n.disk.attempts == w.disk.attempts[id := Attempt(e.pool, e.id, e.reserve, None, Reserved)]
    && n.mem.tasks == w.mem.tasks[id := Task(e, KeyFor(cfg, w.disk.jobs[id].job), false)]
    && Used(n.mem.poolUse, e.pool) == Used(w.mem.poolUse, e.pool) + 1
    && Used(n.mem.endpointUse, e.id) == Used(w.mem.endpointUse, e.id) + 1
  }

  /** Otherwise it goes to the preferred endpoint, with the slot counted and the reserve held, if both caps
      allow it, and is rejected if one does not. */
  lemma TurnIsPlaced(cfg: Config, w: World, id: string, e: Endpoint)
    requires cfg.Valid() && Reachable(cfg, w) && HasTurn(w, id) && UsableNow(w, id) && Uncached(cfg, w, id)
    requires IsPlace(cfg, w, id, e)
    ensures var n := Apply(cfg, w, ServeStep(id));
            && OthersKept(w.disk, n.disk, id)
            && if Affordable(w.disk, e) then RunsAt(cfg, w, n, id, e)
               else InState(n.disk, id, Rejected) && n.disk.attempts == w.disk.attempts && n.mem.tasks == w.mem.tasks
  {
    hide Reachable, UsableNow, HasTurn, Apply, Servable, KeyFor, Cache.Get, IsPlace, Place, Affordable, Placed;
    TurnMisses(cfg, w, id);
    TurnHas(w, id);
    PlaceIs(cfg, w, id, e);
    LookedPlace(cfg, w, id);
    var l := Looked(cfg, w, id);
    PlacedIs(cfg, l, id, e);
    if Affordable(w.disk, e) {
      DispatchIs(cfg, l, id, e);
    } else {
      SetStateIs(w.disk, id, Rejected, AttemptOrCostCeiling);
    }
  }

  lemma PlacedIs(cfg: Config, w: World, id: string, e: Endpoint)
    requires cfg.Valid() && Has(w.disk, id) && Place(cfg, w, id) == Chosen(e) && id !in w.disk.attempts
    ensures Placed(cfg, w, id) == if Affordable(w.disk, e) then Dispatch(w, id, e, KeyFor(cfg, w.disk.jobs[id].job))
                                  else w.(disk := SetState(w.disk, id, Rejected, AttemptOrCostCeiling))
  {
    hide KeyFor, Place, Known, Ledger.Held, Dispatch, SetState;
  }

  lemma DispatchIs(cfg: Config, w: World, id: string, e: Endpoint)
    requires id in w.disk.jobs
    ensures var n := Dispatch(w, id, e, KeyFor(cfg, w.disk.jobs[id].job));
            RunsAt(cfg, w, n, id, e) && OthersKept(w.disk, n.disk, id)
  {
    hide KeyFor;
  }

  // ---- a result used again ----

  ghost predicate Succeeds(w: World, j: string, outcome: Outcome) {
    && CallOver(w, j) && InState(w.disk, j, Running) && UsableNow(w, j)
    && WellStamped(w.disk.jobs[j].receipt, outcome, w.mem.now)
  }

  /** A success of a reusable job is cached if it fits, under the job's own key. */
  lemma SuccessIsCached(cfg: Config, w: World, j: string, outcome: Outcome)
    requires cfg.Valid() && Reachable(cfg, w) && Succeeds(w, j, outcome) && Reusable(cfg, w.disk.jobs[j].job)
    requires cfg.limits.entries > 0 && Cache.Utf8Length(outcome.prediction.payload) <= cfg.limits.maxBytes
    ensures KeyFor(cfg, w.disk.jobs[j].job).Some?
    ensures Cache.Item(KeyFor(cfg, w.disk.jobs[j].job).value, outcome.prediction.payload, w.mem.now)
            in Apply(cfg, w, FinishStep(j, outcome)).mem.cache
  {
    hide Inv, Reachable, UsableNow, Apply, KeyFor, Completed, Aborted, Checked, ReasonNow, Cache.Put, Cache.Utf8Length;
    ReachableInv(cfg, w);
    TaskFacts(cfg, w, j);
    ReasonMeans(w, j);
    KeyMeans(cfg, w.disk.jobs[j].job, w.disk.jobs[j].job);
    FinishWrites(cfg, w, j, outcome);
    CheckedMeans(w.disk.jobs[j].receipt, outcome, w.mem.now);
    RunningSucceeds(w.disk.jobs[j].receipt, ReasonNow(w, j), outcome.prediction, w.mem.now);
    Cache.PutStores(cfg.limits, w.mem.cache, KeyFor(cfg, w.disk.jobs[j].job).value, outcome.prediction.payload, w.mem.now);
  }

  lemma RunningSucceeds(r: Receipt, reason: Option<Reason>, p: Prediction, now: nat)
    requires r.state == Running && reason.None?
    ensures Completed(r, reason, p, now).state == Succeeded
  {
  }

  /** So once a job has succeeded, the next job that asks for the same work under the same contract before
      the time to live has passed is given the same result without a call. */
  lemma SuccessIsReused(cfg: Config, w: World, j: string, outcome: Outcome, t: nat, id: string)
    requires cfg.Valid() && Reachable(cfg, w) && Succeeds(w, j, outcome) && Reusable(cfg, w.disk.jobs[j].job)
    requires cfg.limits.entries > 0 && Cache.Utf8Length(outcome.prediction.payload) <= cfg.limits.maxBytes
    requires w.mem.now <= t < w.mem.now + cfg.limits.ttl
    requires var m := Exec(cfg, w, [FinishStep(j, outcome), ClockStep(t)]);
             && HasTurn(m, id) && UsableNow(m, id) && Reusable(cfg, m.disk.jobs[id].job)
             && SameWork(m.disk.jobs[id].job, w.disk.jobs[j].job)
    ensures var n := Exec(cfg, w, [FinishStep(j, outcome), ClockStep(t), ServeStep(id)]);
            && InState(n.disk, id, Succeeded) && n.disk.jobs[id].receipt.prediction == Some(outcome.prediction.payload)
            && n.mem.tasks == Exec(cfg, w, [FinishStep(j, outcome), ClockStep(t)]).mem.tasks
  {
    hide Reachable, Apply, KeyFor, UsableNow, HasTurn, Cache.Utf8Length, Exec;
    var f := Apply(cfg, w, FinishStep(j, outcome));
    var m := Apply(cfg, f, ClockStep(t));
    ExecTwo(cfg, w, FinishStep(j, outcome), ClockStep(t));
    ExecThree(cfg, w, FinishStep(j, outcome), ClockStep(t), ServeStep(id));
    SuccessIsCached(cfg, w, j, outcome);
    ReachesOn(cfg, w, FinishStep(j, outcome));
    ReachesOn(cfg, f, ClockStep(t));
    ClockMoves(cfg, w, j, outcome, t);
    TurnHas(m, id);
    FinishDecides(cfg, w, j, outcome);
    var a, b := m.disk.jobs[id].job, w.disk.jobs[j].job;
    KeyMeans(cfg, a, b);
    var item := Cache.Item(KeyFor(cfg, b).value, outcome.prediction.payload, w.mem.now);
    assert Cached(cfg, m, id, item);
    TurnHits(cfg, m, id, item);
  }

  lemma ClockMoves(cfg: Config, w: World, j: string, outcome: Outcome, t: nat)
    requires cfg.Valid() && Reachable(cfg, w) && CallOver(w, j) && w.mem.now <= t
    ensures var f := Apply(cfg, w, FinishStep(j, outcome));
            f.up && Apply(cfg, f, ClockStep(t)).mem.cache == f.mem.cache && Apply(cfg, f, ClockStep(t)).mem.now == t
  {
    hide Inv, Reachable, Checked, EndReceipt, Cache.Put, Apply, SetReceipt, Settle;
    ReachableInv(cfg, w);
    TaskFacts(cfg, w, j);
    FinishWrites(cfg, w, j, outcome);
    ClockIs(cfg, Apply(cfg, w, FinishStep(j, outcome)), t);
  }

  lemma ClockIs(cfg: Config, w: World, t: nat)
    requires cfg.Valid() && w.up && w.mem.now <= t
    ensures Apply(cfg, w, ClockStep(t)) == w.(mem := w.mem.(now := t))
  {
  }

  lemma ExecThree(cfg: Config, w: World, a: Step, b: Step, c: Step)
    requires cfg.Valid()
    ensures Exec(cfg, w, [a, b, c]) == Apply(cfg, Apply(cfg, Apply(cfg, w, a), b), c)
  {
    hide Apply;
    assert [a, b, c][1..] == [b, c];
    ExecTwo(cfg, Apply(cfg, w, a), b, c);
  }
}
