/** The coordinator as an object (runtime.py): it changes the store, the cache and its own counters in
    place, and each method is the corresponding step of the state machine. */
module Server {
  import opened Basics
  import opened Order
  import opened Contracts
  import opened Scheduling
  import opened Ledger
  import opened Coordinator
  import opened Invariant
  import opened Steps
  import opened TaskSteps
  import opened TaskEnds
  import opened WorldSteps
  import opened RecoverSteps
  import opened SubmitSteps
  import opened Runs
  import opened Ticks
  import opened Journal
  import Answers
  import Cache

  /** `close`, up to waiting for what is in flight. */
  function ShutAll(w: World, ids: seq<string>): World
    decreases |ids|
  {
    if ids == [] then w else ShutAll(ShutOne(w, ids[0]), ids[1..])
  }

  function CloseAll(w: World): World {
    if w.mem.closed then w else
    var w1 := w.(mem := w.mem.(closed := true));
    ShutAll(w1, QueuedIds(w1.disk))
  }

  /** `advance_session` with its expiry scan. */
  function AdvanceAll(w: World, sid: string, expected: nat, task: string, close: bool): World {
    var out := AdvanceSession(w, sid, expected, task, close);
    if out.result.Ok? then ExpireAll(out.world, PendingIds(out.world.disk)) else w
  }

  lemma {:induction false} ShutAllKeeps(cfg: Config, w: World, ids: seq<string>)
    requires Inv(cfg, w)
    ensures Inv(cfg, ShutAll(w, ids))
    decreases |ids|
  {
    hide Inv, ShutOne;
    if ids != [] {
      ShutOneKeeps(cfg, w, ids[0]);
      ShutAllKeeps(cfg, ShutOne(w, ids[0]), ids[1..]);
    }
  }

  lemma ShutOneIs(w: World, id: string)
    requires w.mem.closed
    ensures var n := ShutOne(w, id);
            && n.disk.jobs.Keys == w.disk.jobs.Keys && n.mem == w.mem && n.disk.attempts == w.disk.attempts
            && forall x :: x in w.disk.jobs ==>
                 if x == id && StateOf(w.disk, x) == Queued then StateOf(n.disk, x) == Cancelled
                 else n.disk.jobs[x] == w.disk.jobs[x]
  {
    hide SetState;
    if id in w.disk.jobs { Answers.SetStateIs(w.disk, id, Cancelled, CoordinatorShutdown); }
  }

  lemma {:induction false} ShutAllIs(w: World, ids: seq<string>)
    requires w.mem.closed
    ensures var n := ShutAll(w, ids);
            && n.disk.jobs.Keys == w.disk.jobs.Keys && n.mem == w.mem && n.disk.attempts == w.disk.attempts
            && forall x :: x in w.disk.jobs ==>
                 if x in ids && StateOf(w.disk, x) == Queued then StateOf(n.disk, x) == Cancelled
                 else n.disk.jobs[x] == w.disk.jobs[x]
    decreases |ids|
  {
    hide ShutOne;
    if ids != [] {
      assert ids == [ids[0]] + ids[1..];
      ShutOneIs(w, ids[0]);
      ShutAllIs(ShutOne(w, ids[0]), ids[1..]);
    }
  }

  /** Closing cancels the whole queue and nothing else: what is in flight keeps its task and its slot, and
      from then on nothing is admitted or served. */
  lemma CloseAnswers(cfg: Config, w: World)
    requires cfg.Valid() && Inv(cfg, w) && !w.mem.closed
    ensures var n := CloseAll(w);
            && n.disk.jobs.Keys == w.disk.jobs.Keys && n.disk.attempts == w.disk.attempts
            && n.mem == w.mem.(closed := true)
            && (forall x :: x in w.disk.jobs ==>
                  if StateOf(w.disk, x) == Queued then StateOf(n.disk, x) == Cancelled else n.disk.jobs[x] == w.disk.jobs[x])
            && (forall x :: Serve(cfg, n, x) == n) && (forall job :: Submit(cfg, n, job).result.Err?)
  {
    hide Inv, ShutAll, QueuedIds, InStates, OrderOk, DepsDone, Job.Valid;
    InvOrder(cfg, w);
    QueuedListed(w.disk);
    ShutAllIs(w.(mem := w.mem.(closed := true)), QueuedIds(w.disk));
  }

  lemma {:induction false} ExpireAllKeeps(cfg: Config, w: World, ids: seq<string>)
    requires Inv(cfg, w)
    ensures Inv(cfg, ExpireAll(w, ids))
    decreases |ids|
  {
    hide Inv, Expire;
    if ids != [] {
      ExpireKeeps(cfg, w, ids[0]);
      ExpireAllKeeps(cfg, Expire(w, ids[0]), ids[1..]);
    }
  }

  class Runtime {
    const cfg: Config
    const store: Store
    const cache: Cache.HistoricalCache
    const clockId: string
    var now: nat
    var closed: bool
    var poolUse: map<string, nat>
    var endpointUse: map<string, nat>
    var running: map<string, Task>
    ghost var remote: map<string, string>
    ghost var calls: map<string, nat>
    ghost var served: map<string, Cache.Hit>
    ghost var exposed: set<string>

    ghost function Abs(): World
      reads this, store, cache
    {
      World(store.Tables(), true, Mem(clockId, now, closed, running, poolUse, endpointUse, cache.data),
        remote, calls, served, exposed)
    }

    ghost predicate Ready()
      reads this, store, cache
    {
      cfg.Valid() && cache.Valid() && cache.limits == cfg.limits
    }

    ghost predicate Valid()
      reads this, store, cache
    {
      Ready() && Inv(cfg, Abs())
    }

    /** A new process over an existing journal: recovery first, then empty memory. `past` is the world
        the last coordinator left. */
    constructor (cfg: Config, store: Store, clockId: string, now: nat, ghost past: World)
      requires cfg.Valid() && Inv(cfg, past) && !past.up && past.disk == store.Tables()
      modifies store
      ensures Valid() && this.cfg == cfg && this.store == store && fresh(cache)
      ensures Abs() == Boot(past, clockId, now)
    {
      hide Inv, Ledger.Recover, Cache.Fits, OrderOk, Filed;
      this.cfg, this.store, this.clockId, this.now := cfg, store, clockId, now;
      cache := new Cache.HistoricalCache(cfg.limits);
      closed, poolUse, endpointUse, running := false, map[], map[], map[];
      remote, calls, served, exposed := past.remote, past.calls, past.served, past.exposed;
      new;
      InvOrder(cfg, past);
      InvFiled(cfg, past);
      BootKeeps(cfg, past, clockId, now);
      store.Recover();
    }

    /** `_set`. */
    method Set(id: string, r: Receipt, state: JobState, reason: Reason)
      requires Ready() && id in store.jobs && store.jobs[id].receipt == r && r.jobId == id
      modifies store
      ensures Ready() && Abs() == old(Abs()).(disk := SetState(old(store.Tables()), id, state, reason))
    {
      hide Cache.Fits, Inv;
      store.SaveReceipt(r.(state := state, reason := Some(reason)));
    }

    method AdvanceClock(t: nat)
      requires Valid() && now <= t
      modifies this`now
      ensures Valid() && Abs() == Apply(cfg, old(Abs()), ClockStep(t))
    {
      hide Cache.Fits, Inv;
      ClockKeeps(cfg, Abs(), t, closed);
      now := t;
    }

    // ---- sessions ----

    method OpenSession(sid: string, task: string) returns (r: Result<Session>)
      requires Valid()
      modifies store
      ensures Valid()
      ensures Out(Abs(), r) == Coordinator.OpenSession(cfg, old(Abs()), sid, task)
    {
      hide Cache.Fits, Inv;
      OpenKeeps(cfg, Abs(), sid, task);
      var known := sid in store.sessions;
      if known && store.sessions[sid].active {
        return Err(Permission);
      }
      var epoch := if known then store.sessions[sid].epoch + 1 else 0;
      var s := Session(cfg.tenant, sid, epoch, task, clockId, true, now, None);
      store.PutSession(s);
      r := Ok(s);
    }

    method AdvanceSession(sid: string, expected: nat, task: string, close: bool) returns (r: Result<Session>)
      requires Valid()
      modifies this, store
      ensures Valid()
      ensures r == Coordinator.AdvanceSession(old(Abs()), sid, expected, task, close).result
      ensures Abs() == AdvanceAll(old(Abs()), sid, expected, task, close)
    {
      hide Cache.Fits, Coordinator.Expire, Inv, PendingIds;
      AdvanceKeeps(cfg, Abs(), sid, expected, task, close);
      if sid !in store.sessions {
        return Err(Key);
      }
      var prior := store.sessions[sid];
      if prior.epoch != expected || prior.clockId != clockId || !prior.active {
        return Err(Permission);
      }
      SessionIds(cfg, Abs());
      var s := Session(prior.tenant, prior.id, prior.epoch + 1, task, clockId, !close, now, None);
      store.PutSession(s);
      Expire();
      r := Ok(s);
    }

    method Heartbeat(sid: string, expected: nat, buffer: Option<nat>) returns (r: Result<Session>)
      requires Valid()
      modifies store
      ensures Valid()
      ensures Out(Abs(), r) == Coordinator.Heartbeat(old(Abs()), sid, expected, buffer)
    {
      hide Cache.Fits, Inv;
      HeartbeatKeeps(cfg, Abs(), sid, expected, buffer);
      if sid !in store.sessions {
        return Err(Key);
      }
      var prior := store.sessions[sid];
      if prior.epoch != expected || prior.clockId != clockId || !prior.active {
        return Err(Permission);
      }
      if buffer.Some? && !(now <= buffer.value <= now + 60_000_000_000) {
        return Err(Error.Value);
      }
      SessionIds(cfg, Abs());
      var s := prior.(updated := now, bufferUntil := buffer);
      store.PutSession(s);
      r := Ok(s);
    }

    /** `_expire`: the list is taken once, then each job looked at. */
    method Expire()
      requires Valid()
      modifies store
      ensures Valid() && Abs() == ExpireAll(old(Abs()), PendingIds(old(store.Tables())))
    {
      hide Cache.Fits, Coordinator.Expire, InStates, Inv;
      ghost var w := Abs();
      var ids := store.ListJobs({Queued, Running});
      for i := 0 to |ids|
        invariant Valid()
        invariant ExpireAll(Abs(), ids[i..]) == ExpireAll(w, ids)
      {
        assert ids[i..][1..] == ids[i + 1..];
        ExpireOne(ids[i]);
      }
    }

    method ExpireOne(id: string)
      requires Valid()
      modifies store
      ensures Valid() && Abs() == Coordinator.Expire(old(Abs()), id)
    {
      hide Cache.Fits, Inv;
      ExpireKeeps(cfg, Abs(), id);
      if id !in store.jobs || store.jobs[id].job.sessionId !in store.sessions {
        return;
      }
      InvFiled(cfg, Abs());
      var row := store.jobs[id];
      if row.receipt.state == Queued || row.receipt.state == Running {
        var reason := row.job.InvalidReason(store.sessions[row.job.sessionId], now, clockId);
        if reason.Some? {
          Set(id, row.receipt, Lapse(reason.value), reason.value);
        }
      }
    }

    // ---- submission ----

    method CheckDependencies(job: Job) returns (refused: Option<Error>)
      ensures refused == CheckDeps(store.Tables(), job, job.dependencies)
    {
      for i := 0 to |job.dependencies|
        invariant CheckDeps(store.Tables(), job, job.dependencies[i..]) == CheckDeps(store.Tables(), job, job.dependencies)
      {
        hide SameLine, SourcesWithin;
        var dep := job.dependencies[i];
        assert job.dependencies[i..][1..] == job.dependencies[i + 1..];
        if dep !in store.jobs {
          return Some(Key);
        }
        var parent := store.jobs[dep].job;
        if !SameLine(parent, job) || !SourcesWithin(parent, job) {
          return Some(Permission);
        }
      }
      return None;
    }

    /** Whether some queued or running job depends on this one. */
    method DependedUpon(id: string) returns (b: bool)
      requires OrderOk(store.Tables())
      ensures b == DependedOn(store.Tables(), id)
    {
      hide OrderOk;
      var ids := store.ListJobs({Queued, Running});
      PendingNamed(store.Tables(), ids);
      for i := 0 to |ids|
        invariant forall k :: 0 <= k < i ==> id !in store.jobs[ids[k]].job.dependencies
      {
        if id in store.jobs[ids[i]].job.dependencies {
          return true;
        }
      }
      return false;
    }

    method FindReplaced(job: Job) returns (r: Replacement)
      requires OrderOk(store.Tables())
      ensures r == ScanReplace(store.Tables(), job, QueuedIds(store.Tables()))
    {
      hide OrderOk, SameSlot, DependedOn, InStates;
      r := Replacement(false, []);
      var ids := store.ListJobs({Queued});
      for i := 0 to |ids|
        invariant r == ScanReplace(store.Tables(), job, ids[..i])
      {
        assert ids[..i + 1][..i] == ids[..i];
        if ids[i] in store.jobs && SameSlot(store.jobs[ids[i]].job, job) {
          var prev := store.jobs[ids[i]].job;
          if prev.snapshot >= job.snapshot {
            r := r.(newer := true);
          } else {
            var depended := DependedUpon(ids[i]);
            if !depended {
              r := r.(superseded := r.superseded + [ids[i]]);
            }
          }
        }
      }
      assert ids[..|ids|] == ids;
    }

    /** Why a new job is not queued, if it is not, and what it replaces if it is. */
    method Decide(job: Job) returns (v: Verdict)
      requires OrderOk(store.Tables()) && job.sessionId in store.sessions
      ensures v == Judge(cfg, Abs(), job)
    {
      hide OrderOk, Job.InvalidReason, ScanReplace, Allowed, QueuedIds;
      var reason := job.InvalidReason(store.sessions[job.sessionId], now, clockId);
      var scan := Replacement(false, []);
      if job.replaceKey.Some? && reason.None? {
        scan := FindReplaced(job);
        if scan.newer { reason := Some(SupersededByNewerSnapshot); }
      }
      var queued := QueuedIds(store.Tables());
      if |queued| - |scan.superseded| >= cfg.maxQueue {
        reason := if reason.Some? then reason else Some(QueueCapacity);
      }
      var eps := Allowed(cfg, job);
      if eps == [] {
        reason := if reason.Some? then reason else Some(NoAllowedEndpoint);
      }
      if eps != [] && !cfg.allowNetwork && (forall e :: e in eps ==> !e.mock && e.id !in cfg.custom) {
        reason := if reason.Some? then reason else Some(NetworkNotAuthorized);
      }
      v := Verdict(reason, scan.superseded);
    }

    /** Replaced jobs are closed one at a time after the new row is in. */
    method SupersedeEach(ids: seq<string>)
      requires Ready() && Filed(store.Tables())
      modifies store
      ensures Ready() && store.Tables() == Supersede(old(store.Tables()), ids)
    {
      hide SetState, Cache.Fits;
      ghost var d := store.Tables();
      for i := 0 to |ids|
        invariant Ready() && Filed(store.Tables())
        invariant Supersede(store.Tables(), ids[i..]) == Supersede(d, ids)
      {
        assert ids[i..][1..] == ids[i + 1..];
        SupersedeOne(ids[i]);
      }
    }

    method SupersedeOne(id: string)
      requires Ready() && Filed(store.Tables())
      modifies store
      ensures Ready() && Filed(store.Tables())
      ensures store.Tables() == SetState(old(store.Tables()), id, Superseded, ExplicitReplacement)
    {
      hide Cache.Fits;
      if id in store.jobs {
        Set(id, store.jobs[id].receipt, Superseded, ExplicitReplacement);
      }
    }

    method Submit(job: Job) returns (r: Result<Receipt>)
      requires Valid()
      modifies store
      ensures Valid()
      ensures Out(Abs(), r) == Coordinator.Submit(cfg, old(Abs()), job)
    {
      hide Inv, Cache.Fits, OrderOk, Filed, Job.Valid, CheckDeps, Judge, Ledger.AddJob, Supersede;
      SubmitKeeps(cfg, Abs(), job);
      InvOrder(cfg, Abs());
      InvFiled(cfg, Abs());
      if !job.Valid() {
        return Err(Error.Value);
      }
      if closed || job.tenant != cfg.tenant {
        return Err(Permission);
      }
      if job.id in store.jobs {
        if store.jobs[job.id].job != job {
          return Err(Error.Value);
        }
        return Ok(store.jobs[job.id].receipt);
      }
      if job.model !in cfg.models {
        return Err(Error.Value);
      }
      if |store.jobs| >= cfg.maxJobs {
        return Err(Permission);
      }
      if job.sessionId !in store.sessions {
        return Err(Key);
      }
      var refused := CheckDependencies(job);
      if refused.Some? {
        return Err(refused.value);
      }
      r := Admit(job);
    }

    /** The decision and the writes. */
    method Admit(job: Job) returns (r: Result<Receipt>)
      requires Ready() && OrderOk(store.Tables()) && Filed(store.Tables()) && job.sessionId in store.sessions
      modifies store
      ensures Ready()
      ensures var v, w := Judge(cfg, old(Abs()), job), old(Abs());
              var receipt := NewReceipt(job, v.reason, w.mem.now);
              match Ledger.AddJob(w.disk, job, receipt)
              case None => Abs() == w && r == Err(Error.Value)
              case Some(d) =>
                && r == Ok(receipt)
                && Abs() == w.(disk := if v.reason.None? then Supersede(d, v.superseded) else d)
    {
      hide Cache.Fits, OrderOk, Judge, Supersede, Filed;
      var v := Decide(job);
      var receipt := NewReceipt(job, v.reason, now);
      ghost var d := store.Tables();
      var ok := store.AddJob(job, receipt);
      if !ok {
        return Err(Error.Value);
      }
      AddedFiled(d, job, receipt);
      if v.reason.None? {
        SupersedeEach(v.superseded);
      }
      r := Ok(receipt);
    }

    // ---- the scheduler ----

    /** One service: a hit, nowhere to go, no money, or a new task. */
    method Serve(id: string)
      requires Valid() && Servable(Abs(), id)
      modifies this, store, cache
      ensures Valid() && Abs() == Coordinator.Serve(cfg, old(Abs()), id)
    {
      hide Inv, Cache.Fits, Job.InvalidReason, DepsDone, Cache.Get, KeyFor, Place, CanReserve, Plus, Placed,
           Choose, IsChoice, Job.Latest, OrderOk;
      ServeKeeps(cfg, Abs(), id);
      InvFiled(cfg, Abs());
      var row := store.jobs[id];
      var session := store.sessions[row.job.sessionId];
      var reason := row.job.InvalidReason(session, now, clockId);
      if reason.Some? {
        Set(id, row.receipt, Lapse(reason.value), reason.value);
        return;
      }
      ghost var w := Abs();
      var key := KeyFor(cfg, row.job);
      var hit := cache.Lookup(key, now);
      if hit.Some? {
        HitIsFinished(cfg, w, id);
        store.SaveReceipt(row.receipt.(state := Succeeded, prediction := Some(hit.value.payload), completed := Some(now),
                                       computed := Some(hit.value.computed), cacheHit := true,
                                       usage := Some(Usage(Some(0)))));
        return;
      }
      MissIsPlaced(cfg, w, id);
      Deploy(id, key);
    }

    /** `choose_endpoint` over the model's endpoints and the slots in use now. */
    method PlaceNow(id: string) returns (choice: Choice)
      requires Ready() && Has(store.Tables(), id)
      ensures choice == Place(cfg, Abs(), id)
    {
      hide Cache.Fits, Choose, IsChoice, Job.Latest, Feasible;
      var row := store.jobs[id];
      var session := store.sessions[row.job.sessionId];
      ForModelWithin(cfg.endpoints, row.job.model);
      var eps := ForModel(cfg.endpoints, row.job.model);
      choice := ChooseEndpoint(eps, now, row.job.Latest(session), row.job.sites, cfg.slots, poolUse, endpointUse,
                               store.quarantines, cfg.placement);
    }

    /** After a miss: choose an endpoint, reserve, mark running, start `_run`. */
    method Deploy(id: string, key: Option<CacheKey>)
      requires Ready() && Servable(Abs(), id) && Filed(store.Tables()) && key == KeyFor(cfg, store.jobs[id].job)
      modifies this, store
      ensures Ready() && Abs() == Placed(cfg, old(Abs()), id)
    {
      hide Cache.Fits, DepsDone, KeyFor, CanReserve, Plus, Place, Config.Valid, Cache.HistoricalCache.Valid, InState;
      var row := store.jobs[id];
      var choice := PlaceNow(id);
      if choice.NoEndpoint? {
        return;
      }
      var ep := choice.endpoint;
      var reserved := store.Reserve(id, ep);
      if reserved.Ceiling? {
        Set(id, row.receipt, Rejected, AttemptOrCostCeiling);
        return;
      }
      if reserved.KeyClash? {
        return;
      }
      store.SaveReceipt(row.receipt.(state := Running, endpoint := Some(ep.id), started := Some(now)));
      poolUse := Plus(poolUse, ep.pool);
      endpointUse := Plus(endpointUse, ep.id);
      running := running[id := Task(ep, key, false)];
    }

    /** One job of the scan: dead dependencies, unfinished ones, or ready under its rank. */
    method Inspect(id: string, ready: seq<Keyed<string>>) returns (next: seq<Keyed<string>>)
      requires Valid() && Has(store.Tables(), id) && InState(store.Tables(), id, Queued) && !closed
      modifies store
      ensures Valid() && Scan(Abs(), next) == ScanOne(cfg, Scan(old(Abs()), ready), id)
    {
      hide Inv, Cache.Fits, RankOf, CandidateOf, DepsDone, DepsAlive;
      PruneKeeps(cfg, Abs(), id);
      InvFiled(cfg, Abs());
      QueuedAllowed(cfg, Abs(), id);
      var row := store.jobs[id];
      next := ready;
      if !DepsAlive(store.Tables(), row.job.dependencies) {
        Set(id, row.receipt, Rejected, DependencyFailed);
        return;
      }
      if !DepsDone(store.Tables(), row.job.dependencies) {
        return;
      }
      next := ready + [Keyed(RankOf(CandidateOf(cfg, store.Tables(), id), now, cfg.mode), id)];
    }

    method ScanReady() returns (ready: seq<Keyed<string>>)
      requires Valid() && !closed
      modifies store
      ensures Valid() && Scan(Abs(), ready) == ScanQueue(cfg, old(Abs()), QueuedIds(old(store.Tables())))
    {
      hide Inv, Cache.Fits, ScanOne, InStates, Has, InState, Kindred, ScanOk, OrderOk, Servable;
      ghost var w := Abs();
      ready := [];
      var ids := store.ListJobs({Queued});
      QueueListed(cfg, w);
      for i := 0 to |ids|
        invariant Valid() && !closed
        invariant Scan(Abs(), ready) == ScanQueue(cfg, w, ids[..i])
        invariant ScanOk(Scan(Abs(), ready), ids[i..])
      {
        assert ids[..i + 1][..i] == ids[..i] && ids[i..][1..] == ids[i + 1..];
        ScanOneOk(cfg, Scan(Abs(), ready), ids[i..]);
        NextQueued(Scan(Abs(), ready), ids[i..]);
        ready := Inspect(ids[i], ready);
      }
      assert ids[..|ids|] == ids;
    }

    /** Lapse, read the clock again and scan, then serve in rank order. */
    method Tick(ranked: nat, clock: nat -> nat)
      requires Valid()
      modifies this, store, cache
      ensures Valid() && Abs() == Ticks.Tick(cfg, old(Abs()), ranked, clock)
    {
      hide Inv, Cache.Fits, ExpireAll, ScanQueue, InStates, Sort, Items, Servable, PendingIds, QueuedIds;
      if closed {
        return;
      }
      ExpireAllUp(Abs(), PendingIds(store.Tables()));
      Expire();
      ReadClock(ranked);
      ServedList(cfg, Abs());
      var ready := ScanReady();
      ServeEach(Items(Sort(ready)), clock);
    }

    /** The clock is read again within a stretch. */
    method ReadClock(t: nat)
      requires Valid()
      modifies this`now
      ensures Valid() && Abs() == Later(old(Abs()), t)
    {
      hide Inv, Cache.Fits;
      if now <= t {
        AdvanceClock(t);
      }
    }

    method ServeEach(ids: seq<string>, clock: nat -> nat)
      requires Valid() && Distinct(ids) && forall x :: x in ids ==> Servable(Abs(), x)
      modifies this, store, cache
      ensures Valid() && Abs() == ServeAll(cfg, old(Abs()), ids, clock)
    {
      hide Inv, Cache.Fits, Servable, Coordinator.Serve, Later;
      ghost var w := Abs();
      for i := 0 to |ids|
        invariant Valid() && Abs() == ServeAll(cfg, w, ids[..i], clock)
      {
        assert ids[..i + 1][..i] == ids[..i];
        StillServable(cfg, w, ids, clock, i);
        ReadClock(clock(i));
        Serve(ids[i]);
      }
      assert ids[..|ids|] == ids;
    }

    // ---- a task ----

    /** `finally`: the slot goes back; the counters never reach below zero. */
    method GiveBack(id: string)
      requires id in running && running[id].endpoint.pool in poolUse && poolUse[running[id].endpoint.pool] > 0
      requires running[id].endpoint.id in endpointUse && endpointUse[running[id].endpoint.id] > 0
      modifies this`poolUse, this`endpointUse, this`running
      ensures Abs() == old(Abs()).(mem := EndTask(old(Abs()).mem, id))
    {
      var ep := running[id].endpoint;
      poolUse := poolUse[ep.pool := poolUse[ep.pool] - 1];
      endpointUse := endpointUse[ep.id := endpointUse[ep.id] - 1];
      running := running - {id};
    }

    /** `_run` up to its first await. */
    method Begin(id: string)
      requires Valid() && id in running && !running[id].sent
      modifies this, store
      ensures Valid() && Abs() == Coordinator.Begin(old(Abs()), id)
    {
      hide Inv, Cache.Fits, Job.InvalidReason, Minus, EndTask;
      BeginKeeps(cfg, Abs(), id);
      TaskSeated(cfg, Abs(), id);
      InvFiled(cfg, Abs());
      var job := store.jobs[id].job;
      var reason := job.InvalidReason(store.sessions[job.sessionId], now, clockId);
      if reason.Some? {
        store.Settle(id, Some(0));
        Set(id, store.jobs[id].receipt, Lapse(reason.value), reason.value);
        GiveBack(id);
        return;
      }
      remote := remote[id := running[id].endpoint.pool];
      calls := calls[id := Used(calls, id) + 1];
      running := running[id := running[id].(sent := true)];
    }

    /** `_run` from the backend's answer to its end. */
    method Finish(id: string, outcome: Outcome)
      requires Valid() && id in running && running[id].sent
      modifies this, store, cache
      ensures Valid() && Abs() == Coordinator.Finish(cfg, old(Abs()), id, outcome)
    {
      hide Inv, Cache.Fits, Job.InvalidReason, EndTask, Minus, Complete, Abort;
      FinishKeeps(cfg, Abs(), id, outcome);
      TaskSeated(cfg, Abs(), id);
      InvFiled(cfg, Abs());
      match Checked(store.jobs[id].receipt, outcome, now)
      case Returned(p) => Succeed(id, p);
      case Raised(code, ending) => Fail(id, code, ending);
    }

    method Succeed(id: string, p: Prediction)
      requires Ready() && Filed(store.Tables()) && Seated(Abs(), id)
      modifies this, store, cache
      ensures Ready() && Abs() == Complete(cfg, old(Abs()), id, p)
    {
      hide Cache.Fits, Job.InvalidReason, Minus, Cache.Put, SettleAttempt, Lapse, Config.Valid;
      var row := store.jobs[id];
      var key := running[id].key;
      store.Settle(id, p.usage.cost);
      var reason := row.job.InvalidReason(store.sessions[row.job.sessionId], now, clockId);
      var state := if row.receipt.state != Running then row.receipt.state
                   else if reason.Some? then Lapse(reason.value) else Succeeded;
      var done := row.receipt.(state := state, reason := if row.receipt.state != Running then row.receipt.reason else reason,
                                completed := Some(now), computed := Some(now), prediction := Some(p.payload),
                                usage := Some(p.usage), firstContent := p.firstContent);
      store.SaveReceipt(done);
      if state == Succeeded {
        cache.Store(key, p.payload, now);
        served := served[id := Cache.Hit(p.payload, now)];
      }
      remote := remote - {id};
      GiveBack(id);
    }

    method Fail(id: string, code: string, ending: Ending)
      requires Ready() && Filed(store.Tables()) && Seated(Abs(), id)
      modifies this, store
      ensures Ready() && Abs() == Abort(old(Abs()), id, code, ending)
    {
      hide Cache.Fits, Minus, EndTask;
      var pool := running[id].endpoint.pool;
      store.Settle(id, if ending == NotSent then Some(0) else None);
      var receipt := store.jobs[id].receipt;
      var state := if ending == Unconfirmed then Unknown else Failed;
      if receipt.state != Running { state := receipt.state; }
      store.SaveReceipt(receipt.(completed := Some(now), state := state, reason := Some(BackendCode(code))));
      if ending == Unconfirmed {
        store.Quarantine(pool);
      } else {
        remote := remote - {id};
      }
      GiveBack(id);
    }

    // ---- consumers ----

    method Cancel(id: string) returns (r: Result<Receipt>)
      requires Valid()
      modifies store
      ensures Valid()
      ensures Out(Abs(), r) == Coordinator.Cancel(old(Abs()), id)
    {
      hide Cache.Fits, Inv;
      CancelKeeps(cfg, Abs(), id);
      InvFiled(cfg, Abs());
      if id !in store.jobs {
        return Err(Key);
      }
      var receipt := store.jobs[id].receipt;
      if receipt.state in {Queued, Running, Succeeded} {
        Set(id, receipt, Cancelled, ConsumerCancelled);
        return Ok(store.jobs[id].receipt);
      }
      r := Ok(receipt);
    }

    method Consume(id: string, who: string) returns (r: Result<Receipt>)
      requires Valid()
      modifies store
      ensures Valid()
      ensures Out(Abs(), r) == Coordinator.Consume(old(Abs()), id, who)
    {
      hide Cache.Fits, Inv;
      ConsumeKeeps(cfg, Abs(), id, who);
      InvFiled(cfg, Abs());
      if id !in store.jobs || store.jobs[id].job.sessionId !in store.sessions {
        return Err(Key);
      }
      var row := store.jobs[id];
      var reason := row.job.InvalidReason(store.sessions[row.job.sessionId], now, clockId);
      if reason.Some? {
        return Err(Permission);
      }
      if row.receipt.state != Succeeded && row.receipt.state != Consumed {
        return Err(Permission);
      }
      if row.receipt.consumedBy.Some? {
        if row.receipt.consumedBy.value != who {
          return Err(Permission);
        }
        return Ok(row.receipt);
      }
      var done := row.receipt.(state := Consumed, consumedBy := Some(who), consumedAt := Some(now));
      store.SaveReceipt(done);
      r := Ok(done);
    }

    method Close()
      requires Valid()
      modifies this, store
      ensures Valid() && Abs() == CloseAll(old(Abs()))
    {
      hide Cache.Fits, InStates, Inv, ShutOne;
      if closed {
        return;
      }
      ClockKeeps(cfg, Abs(), now, true);
      closed := true;
      ghost var w := Abs();
      var ids := store.ListJobs({Queued});
      for i := 0 to |ids|
        invariant Valid() && closed
        invariant ShutAll(Abs(), ids[i..]) == ShutAll(w, ids)
      {
        assert ids[i..][1..] == ids[i + 1..];
        Shut(ids[i]);
      }
    }

    method Shut(id: string)
      requires Valid() && closed
      modifies store
      ensures Valid() && Abs() == ShutOne(old(Abs()), id)
    {
      hide Cache.Fits, Inv;
      ShutOneKeeps(cfg, Abs(), id);
      InvFiled(cfg, Abs());
      if id in store.jobs && store.jobs[id].receipt.state == Queued {
        Set(id, store.jobs[id].receipt, Cancelled, CoordinatorShutdown);
      }
    }
  }

  /** A task has its job, its session and its counted slot. */
  ghost predicate Seated(w: World, id: string) {
    && id in w.mem.tasks && Has(w.disk, id)
    && Used(w.mem.poolUse, w.mem.tasks[id].endpoint.pool) > 0 && Used(w.mem.endpointUse, w.mem.tasks[id].endpoint.id) > 0
  }

  lemma TaskSeated(cfg: Config, w: World, id: string)
    requires Inv(cfg, w) && id in w.mem.tasks
    ensures Seated(w, id)
  {
    hide Locals, Solvent, Seats, CacheOk, SlotOrder, Graph, Progress, OrderOk;
    assert w.up;
    var ep := w.mem.tasks[id].endpoint;
    assert id in TasksOn(w.mem.tasks, ep.pool) && id in TasksAt(w.mem.tasks, ep.id);
  }

  lemma QueueListed(cfg: Config, w: World)
    requires Inv(cfg, w) && !w.mem.closed
    ensures Distinct(QueuedIds(w.disk)) && ScanOk(Scan(w, []), QueuedIds(w.disk))
  {
    InvOrder(cfg, w);
    hide Inv, OrderOk, Has, InState;
    QueuedListed(w.disk);
    forall x | x in QueuedIds(w.disk) ensures InState(w.disk, x, Queued) && Has(w.disk, x) { QueuedHave(cfg, w, x); }
  }

  lemma NextQueued(s: Scan, ids: seq<string>)
    requires ids != [] && ScanOk(s, ids)
    ensures InState(s.world.disk, ids[0], Queued) && Has(s.world.disk, ids[0]) && !s.world.mem.closed
  {
    assert ids[0] in ids;
  }

  lemma PendingNamed(d: Disk, ids: seq<string>)
    requires OrderOk(d) && ids == InStates(d, d.order, {Queued, Running})
    ensures forall k :: 0 <= k < |ids| ==> ids[k] in d.jobs && Pending(StateOf(d, ids[k]))
    ensures forall c :: c in d.jobs && Pending(StateOf(d, c)) ==> exists k :: 0 <= k < |ids| && ids[k] == c
  {
    PendingOnce(d, ids);
    forall k | 0 <= k < |ids| ensures ids[k] in PendingSet(d) { assert ids[k] in ids; }
    forall c | c in d.jobs && Pending(StateOf(d, c)) ensures c in ids { assert c in PendingSet(d); }
  }

  lemma AddedFiled(d: Disk, job: Job, receipt: Receipt)
    requires Filed(d) && receipt.jobId == job.id && Ledger.AddJob(d, job, receipt).Some?
    ensures Filed(Ledger.AddJob(d, job, receipt).value)
  {
  }

  lemma InvFiled(cfg: Config, w: World)
    requires Inv(cfg, w)
    ensures Filed(w.disk)
  {
    hide Inv;
    forall id | id in w.disk.jobs ensures w.disk.jobs[id].receipt.jobId == id { InvLocal(cfg, w, id); }
  }
}
