/** Dispatch, send and completion keep the invariant. */
module TaskSteps {
  import opened Basics
  import opened Contracts
  import opened Scheduling
  import opened Ledger
  import opened Coordinator
  import opened Invariant
  import opened Steps
  import Cache

  // ---- serving a ready job ----

  /** Dependencies that have succeeded have produced their predictions. */
  lemma DoneIsFed(cfg: Config, w: World, id: string)
    requires Locals(cfg, w) && id in w.disk.jobs && DepsDone(w.disk, w.disk.jobs[id].job.dependencies)
    ensures Fed(w.disk, id)
  {
    forall dep | dep in w.disk.jobs[id].job.dependencies
      ensures dep in w.disk.jobs && w.disk.jobs[dep].receipt.prediction.Some?
    {
      LocalOf(cfg, w, dep);
    }
  }

  lemma HitLocal(cfg: Config, id: string, v: View, q: set<string>, hit: Cache.Hit, now: nat)
    requires Local(cfg, true, id, v, q) && v.receipt.state == Queued
    ensures Local(cfg, true, id, v.(receipt := Finished(v.receipt, hit, now)), q)
  {
  }

  lemma HitKeeps(cfg: Config, w: World, id: string, hit: Cache.Hit)
    requires Inv(cfg, w) && w.up && Servable(w, id)
    ensures Inv(cfg, WithReceipt(w, id, Finished(w.disk.jobs[id].receipt, hit, w.mem.now)))
  {
    LocalOf(cfg, w, id);
    DoneIsFed(cfg, w, id);
    HitLocal(cfg, id, ViewOf(w, id), Cover(w), hit, w.mem.now);
    WriteKeeps(cfg, w, id, Finished(w.disk.jobs[id].receipt, hit, w.mem.now));
  }

  /** The endpoint found is configured, open, and has a slot to give. */
  lemma PlaceFits(cfg: Config, w: World, id: string)
    requires cfg.Valid() && Has(w.disk, id) && Place(cfg, w, id).Chosen?
    ensures var ep := Place(cfg, w, id).endpoint;
            && ep in cfg.endpoints && ep.pool in cfg.slots && ep.pool !in w.disk.quarantined
            && Used(w.mem.poolUse, ep.pool) < cfg.slots[ep.pool] && Used(w.mem.endpointUse, ep.id) < ep.maxInflight
            && ep.model == w.disk.jobs[id].job.model && ep.site in w.disk.jobs[id].job.sites
  {
    var job := w.disk.jobs[id].job;
    ForModelWithin(cfg.endpoints, job.model);
    ChooseIsChoice(ForModel(cfg.endpoints, job.model), w.mem.now, job.Latest(SessionOf(w.disk, id)), job.sites, cfg.slots,
                   w.mem.poolUse, w.mem.endpointUse, w.disk.quarantined, cfg.placement);
  }

  function DispatchedView(v: View, ep: Endpoint, key: Option<CacheKey>, now: nat): View {
    v.(receipt := Coordinator.Started(v.receipt, ep, now),
       attempt := Some(Attempt(ep.pool, ep.id, ep.reserve, None, Reserved)),
       task := Some(Task(ep, key, false)))
  }

  lemma DispatchTouches(w: World, id: string, ep: Endpoint, key: Option<CacheKey>)
    requires id in w.disk.jobs && StateOf(w.disk, id) == Queued
    ensures Touches(w, Dispatch(w, id, ep, key), id)
    ensures ViewOf(Dispatch(w, id, ep, key), id) == DispatchedView(ViewOf(w, id), ep, key, w.mem.now)
  {
  }

  lemma DispatchLocal(cfg: Config, id: string, v: View, q: set<string>, ep: Endpoint, now: nat)
    requires Local(cfg, true, id, v, q) && v.receipt.state == Queued && ep in cfg.endpoints
    ensures Local(cfg, true, id, DispatchedView(v, ep, KeyFor(cfg, v.job), now), q)
  {
  }

  /** No running job's attempt is settled. */
  ghost predicate RunningUnsettled(d: Disk) {
    forall j :: j in d.attempts && d.attempts[j].actual.Some? ==> !WasRunning(d, j)
  }

  /** While up and between steps, a running job's attempt still awaits its charge. */
  lemma UpUnsettled(cfg: Config, w: World)
    requires w.up && Locals(cfg, w) && Owned(w)
    ensures RunningUnsettled(w.disk)
  {
    forall j | j in w.disk.attempts && w.disk.attempts[j].actual.Some? ensures !WasRunning(w.disk, j) {
      LocalOf(cfg, w, j);
    }
  }

  lemma DispatchCharges(w: World, id: string, ep: Endpoint, key: Option<CacheKey>)
    requires id in w.disk.jobs && id !in w.disk.attempts
    ensures NoDearer(Reserve(w.disk, id, ep), Dispatch(w, id, ep, key).disk)
  {
  }

  lemma DispatchSolvent(w: World, id: string, ep: Endpoint, key: Option<CacheKey>)
    requires Solvent(w.disk) && RunningUnsettled(w.disk)
    requires id in w.disk.jobs && id !in w.disk.attempts && CanReserve(w.disk, ep.reserve)
    ensures Solvent(Dispatch(w, id, ep, key).disk)
  {
    ReserveSolvent(w.disk, id, ep);
    DispatchCharges(w, id, ep, key);
    SolventKept(Reserve(w.disk, id, ep), Dispatch(w, id, ep, key).disk);
  }

  lemma DispatchSeats(cfg: Config, w: World, id: string, ep: Endpoint, key: Option<CacheKey>)
    requires Seats(cfg, w) && UseOk(cfg, w.mem)
    requires ep.pool !in w.exposed ==> BusyOn(w, ep.pool) <= TasksOn(w.mem.tasks, ep.pool)
    requires id in w.disk.jobs && id !in w.disk.attempts && ep.pool in cfg.slots
    requires Used(w.mem.poolUse, ep.pool) < cfg.slots[ep.pool]
    ensures Seats(cfg, Dispatch(w, id, ep, key))
  {
    var n := Dispatch(w, id, ep, key);
    forall p | p in cfg.slots && p !in n.exposed ensures |BusyOn(n, p)| <= cfg.slots[p] {
      DispatchBusy(w, id, ep, key, p);
      if p == ep.pool {
        Smaller(BusyOn(n, p), TasksOn(w.mem.tasks, p) + {id});
      } else {
        Smaller(BusyOn(n, p), BusyOn(w, p));
      }
    }
  }

  lemma DispatchBusy(w: World, id: string, ep: Endpoint, key: Option<CacheKey>, p: string)
    requires id in w.disk.jobs && id !in w.disk.attempts
    ensures BusyOn(Dispatch(w, id, ep, key), p) <= BusyOn(w, p) + if p == ep.pool then {id} else {}
  {
  }

  lemma DispatchCache(cfg: Config, w: World, id: string, ep: Endpoint, key: Option<CacheKey>)
    requires CacheOk(cfg, w) && id in w.disk.jobs && StateOf(w.disk, id) == Queued
    ensures CacheOk(cfg, Dispatch(w, id, ep, key))
  {
    DispatchTouches(w, id, ep, key);
    CacheKept(cfg, w, Dispatch(w, id, ep, key), id);
  }

  lemma DispatchUse(cfg: Config, w: World, id: string, ep: Endpoint, key: Option<CacheKey>)
    requires cfg.Valid() && UseOk(cfg, w.mem) && id !in w.mem.tasks && id in w.disk.jobs
    requires ep in cfg.endpoints && Used(w.mem.endpointUse, ep.id) < ep.maxInflight
    requires Used(w.mem.poolUse, ep.pool) < cfg.slots[ep.pool]
    ensures UseOk(cfg, Dispatch(w, id, ep, key).mem)
  {
    TaskAdded(cfg, w.mem, id, Task(ep, key, false));
  }

  lemma DispatchKeeps(cfg: Config, w: World, id: string)
    requires cfg.Valid() && Inv(cfg, w) && w.up && Servable(w, id) && Place(cfg, w, id).Chosen?
    requires CanReserve(w.disk, Place(cfg, w, id).endpoint.reserve)
    ensures Inv(cfg, Dispatch(w, id, Place(cfg, w, id).endpoint, KeyFor(cfg, w.disk.jobs[id].job)))
  {
    var ep, key := Place(cfg, w, id).endpoint, KeyFor(cfg, w.disk.jobs[id].job);
    PlaceFits(cfg, w, id);
    LocalOf(cfg, w, id);
    DoneIsFed(cfg, w, id);
    UpUnsettled(cfg, w);
    if ep.pool !in w.exposed { OnlyTasksBusy(cfg, w, ep.pool); }
    DispatchSound(cfg, w, id, ep);
    OneJob(cfg, w, Dispatch(w, id, ep, key), id);
  }

  lemma QueuedIsBare(cfg: Config, id: string, v: View, q: set<string>)
    requires Local(cfg, true, id, v, q) && v.receipt.state == Queued
    ensures v.attempt.None? && v.task.None? && v.remote.None?
  {
  }

  lemma DispatchSound(cfg: Config, w: World, id: string, ep: Endpoint)
    requires cfg.Valid() && w.up && Owned(w) && Solvent(w.disk) && Seats(cfg, w) && UseOk(cfg, w.mem) && CacheOk(cfg, w)
    requires id in w.disk.jobs && StateOf(w.disk, id) == Queued && Fed(w.disk, id)
    requires Local(cfg, true, id, ViewOf(w, id), Cover(w))
    requires RunningUnsettled(w.disk) && (ep.pool !in w.exposed ==> BusyOn(w, ep.pool) <= TasksOn(w.mem.tasks, ep.pool))
    requires ep in cfg.endpoints && Used(w.mem.poolUse, ep.pool) < cfg.slots[ep.pool]
    requires Used(w.mem.endpointUse, ep.id) < ep.maxInflight && CanReserve(w.disk, ep.reserve)
    ensures Sound(cfg, w, Dispatch(w, id, ep, KeyFor(cfg, w.disk.jobs[id].job)), id)
  {
    hide Solvent, Seats, UseOk, CacheOk, Touches, Fed, TasksOn, CanReserve, KeyFor, RunningUnsettled, Local;
    var key := KeyFor(cfg, w.disk.jobs[id].job);
    QueuedIsBare(cfg, id, ViewOf(w, id), Cover(w));
    DispatchTouches(w, id, ep, key);
    DispatchLocal(cfg, id, ViewOf(w, id), Cover(w), ep, w.mem.now);
    DispatchSolvent(w, id, ep, key);
    DispatchSeats(cfg, w, id, ep, key);
    DispatchUse(cfg, w, id, ep, key);
    DispatchCache(cfg, w, id, ep, key);
  }

  /** `reserve` meets no row of this job: a queued job owns no attempt. */
  lemma NoPrimaryKeyClash(cfg: Config, w: World, id: string)
    requires Inv(cfg, w) && w.up && InState(w.disk, id, Queued)
    ensures id !in w.disk.attempts && id !in w.mem.tasks && Used(w.calls, id) == 0
  {
    LocalOf(cfg, w, id);
  }

  lemma LookupStep(cfg: Config, w: World, key: Option<CacheKey>)
    requires Inv(cfg, w) && w.up
    ensures Inv(cfg, w.(mem := w.mem.(cache := Cache.Get(cfg.limits, w.mem.cache, key, w.mem.now).data)))
  {
    Cache.GetFits(cfg.limits, w.mem.cache, key, w.mem.now);
    CacheStep(cfg, w, Cache.Get(cfg.limits, w.mem.cache, key, w.mem.now).data);
  }

  lemma ServeKeeps(cfg: Config, w: World, id: string)
    requires cfg.Valid() && Inv(cfg, w) && w.up
    ensures Inv(cfg, Serve(cfg, w, id))
  {
    if Servable(w, id) {
      var reason := ReasonNow(w, id);
      if reason.Some? {
        DeadenKeeps(cfg, w, id, Lapse(reason.value), reason.value);
      } else {
        ServeFreshKeeps(cfg, w, id);
      }
    }
  }

  /** The part of a service after a cache miss. */
  ghost function Placed(cfg: Config, w: World, id: string): World
    requires cfg.Valid() && Has(w.disk, id)
  {
    var place := Place(cfg, w, id);
    if place.NoEndpoint? then w
    else if !CanReserve(w.disk, place.endpoint.reserve) then w.(disk := SetState(w.disk, id, Rejected, AttemptOrCostCeiling))
    else if id in w.disk.attempts then w
    else Dispatch(w, id, place.endpoint, KeyFor(cfg, w.disk.jobs[id].job))
  }

  /** The world after the lookup. */
  function Looked(cfg: Config, w: World, id: string): World
    requires id in w.disk.jobs
  {
    w.(mem := w.mem.(cache := Cache.Get(cfg.limits, w.mem.cache, KeyFor(cfg, w.disk.jobs[id].job), w.mem.now).data))
  }

  lemma MissIsPlaced(cfg: Config, w: World, id: string)
    requires cfg.Valid() && Servable(w, id) && ReasonNow(w, id).None?
    requires Cache.Get(cfg.limits, w.mem.cache, KeyFor(cfg, w.disk.jobs[id].job), w.mem.now).hit.None?
    ensures Servable(Looked(cfg, w, id), id)
    ensures Serve(cfg, w, id) == Placed(cfg, Looked(cfg, w, id), id)
  {
    hide Job.InvalidReason, DepsDone, Cache.Get, CanReserve, KeyFor, Plus;
  }

  lemma HitIsFinished(cfg: Config, w: World, id: string)
    requires cfg.Valid() && Servable(w, id) && ReasonNow(w, id).None?
    requires Cache.Get(cfg.limits, w.mem.cache, KeyFor(cfg, w.disk.jobs[id].job), w.mem.now).hit.Some?
    ensures var hit := Cache.Get(cfg.limits, w.mem.cache, KeyFor(cfg, w.disk.jobs[id].job), w.mem.now).hit.value;
            Serve(cfg, w, id) == WithReceipt(Looked(cfg, w, id), id, Finished(w.disk.jobs[id].receipt, hit, w.mem.now))
  {
    hide Job.InvalidReason, DepsDone, Cache.Get, KeyFor;
  }

  lemma ServeFreshKeeps(cfg: Config, w: World, id: string)
    requires cfg.Valid() && Inv(cfg, w) && w.up && Servable(w, id) && ReasonNow(w, id).None?
    ensures Inv(cfg, Serve(cfg, w, id))
  {
    hide Inv, Placed;
    LookupStep(cfg, w, KeyFor(cfg, w.disk.jobs[id].job));
    var lookup := Cache.Get(cfg.limits, w.mem.cache, KeyFor(cfg, w.disk.jobs[id].job), w.mem.now);
    if lookup.hit.Some? {
      HitKeeps(cfg, Looked(cfg, w, id), id, lookup.hit.value);
    } else {
      MissIsPlaced(cfg, w, id);
      PlaceKeeps(cfg, Looked(cfg, w, id), id);
    }
  }

  lemma PlaceKeeps(cfg: Config, w: World, id: string)
    requires cfg.Valid() && Inv(cfg, w) && w.up && Servable(w, id)
    ensures Inv(cfg, Placed(cfg, w, id))
  {
    hide Inv;
    if Place(cfg, w, id).Chosen? {
      if CanReserve(w.disk, Place(cfg, w, id).endpoint.reserve) {
        DispatchKeeps(cfg, w, id);
      } else {
        DeadenKeeps(cfg, w, id, Rejected, AttemptOrCostCeiling);
      }
    }
  }
}
