/** Where a job may go, said of the fields of endpoint, job and session. */
module Placing {
  import opened Contracts
  import opened Scheduling
  import opened Coordinator

  /** The endpoint is configured for the job's model at a site the job allows. */
  predicate MayServe(cfg: Config, job: Job, e: Endpoint) {
    e in cfg.endpoints && e.model == job.model && e.site in job.sites
  }

  /** It may serve the job, its pool is open and has a slot left, it has one itself, and the job would
      still be in time when the endpoint's estimate has passed. */
  ghost predicate CanTake(cfg: Config, w: World, id: string, e: Endpoint)
    requires cfg.Valid() && Has(w.disk, id)
  {
    && MayServe(cfg, w.disk.jobs[id].job, e) && e.pool !in w.disk.quarantined
    && Used(w.mem.poolUse, e.pool) < cfg.slots[e.pool] && Used(w.mem.endpointUse, e.id) < e.maxInflight
    && InTime(w.disk.jobs[id].job, SessionOf(w.disk, id), w.mem.now + e.estimate)
  }

  /** It can take the job and none that can is preferred to it. */
  ghost predicate IsPlace(cfg: Config, w: World, id: string, e: Endpoint)
    requires cfg.Valid() && Has(w.disk, id)
  {
    CanTake(cfg, w, id, e) && forall f :: f in cfg.endpoints && CanTake(cfg, w, id, f) ==> !Preferred(f, e, cfg.placement)
  }

  lemma {:induction false} AtSitesWithin(endpoints: seq<Endpoint>, sites: seq<string>)
    ensures forall e :: e in AtSites(endpoints, sites) <==> e in endpoints && e.site in sites
  {
    if endpoints != [] {
      AtSitesWithin(endpoints[1..], sites);
      assert endpoints == [endpoints[0]] + endpoints[1..];
    }
  }

  /** The list of allowed endpoints is those that may serve the job. */
  lemma AllowedMeans(cfg: Config, job: Job)
    ensures forall e :: e in Allowed(cfg, job) <==> MayServe(cfg, job, e)
  {
    ForModelWithin(cfg.endpoints, job.model);
    AtSitesWithin(ForModel(cfg.endpoints, job.model), job.sites);
  }

  lemma FeasibleMeans(cfg: Config, w: World, id: string, e: Endpoint)
    requires cfg.Valid() && Has(w.disk, id) && e in cfg.endpoints
    ensures var job := w.disk.jobs[id].job;
            e.model == job.model && Feasible(e, w.mem.now, job.Latest(SessionOf(w.disk, id)), job.sites, cfg.slots,
                                             w.mem.poolUse, w.mem.endpointUse, w.disk.quarantined)
            <==> CanTake(cfg, w, id, e)
  {
    hide Job.Latest, InTime;
    LatestMeans(w.disk.jobs[id].job, SessionOf(w.disk, id), w.mem.now + e.estimate);
  }

  /** A job is placed on an endpoint that can take it and to which none is preferred, and nowhere only
      if no endpoint can take it. */
  lemma PlaceMeans(cfg: Config, w: World, id: string)
    requires cfg.Valid() && Has(w.disk, id)
    ensures match Place(cfg, w, id)
            case NoEndpoint => forall e :: e in cfg.endpoints ==> !CanTake(cfg, w, id, e)
            case Chosen(e) => e in cfg.endpoints && IsPlace(cfg, w, id, e)
  {
    hide Feasible, CanTake, Job.Latest, Preferred;
    var job := w.disk.jobs[id].job;
    ForModelWithin(cfg.endpoints, job.model);
    ChooseIsChoice(ForModel(cfg.endpoints, job.model), w.mem.now, job.Latest(SessionOf(w.disk, id)), job.sites, cfg.slots,
                   w.mem.poolUse, w.mem.endpointUse, w.disk.quarantined, cfg.placement);
    forall e | e in cfg.endpoints
      ensures (e.model == job.model && Feasible(e, w.mem.now, job.Latest(SessionOf(w.disk, id)), job.sites, cfg.slots,
                                                w.mem.poolUse, w.mem.endpointUse, w.disk.quarantined))
              <==> CanTake(cfg, w, id, e)
    {
      FeasibleMeans(cfg, w, id, e);
    }
    hide Choose, ForModel;
    forall e | e in cfg.endpoints && CanTake(cfg, w, id, e) ensures e.model == job.model {
      FeasibleMeans(cfg, w, id, e);
    }
  }
}
