/** The coordinator as a state machine (runtime.py over store.py): every await-free stretch is one
    step, and a crash may fall after any committed transaction. */
module Coordinator {
  import opened Basics
  import opened Contracts
  import opened Scheduling
  import opened Ledger
  import Cache

  datatype Config = Config(tenant: string, maxQueue: nat, maxJobs: nat, mode: Mode, placement: Placement,
                           limits: Cache.Limits, slots: map<string, nat>, models: map<string, string>,
                           endpoints: seq<Endpoint>, custom: set<string>, allowNetwork: bool)
  {
    ghost predicate Valid() {
      && (forall e :: e in endpoints ==> e.pool in slots && e.model in models)
      && (forall i, j :: 0 <= i < j < |endpoints| ==> endpoints[i].id != endpoints[j].id)
      && (forall m :: m in models ==> exists e :: e in endpoints && e.model == m)
    }
  }

  /** A `_run` task: created, then awaiting its backend. */
  datatype Task = Task(endpoint: Endpoint, key: Option<CacheKey>, sent: bool)

  datatype Mem = Mem(clockId: string, now: nat, closed: bool, tasks: map<string, Task>,
                     poolUse: map<string, nat>, endpointUse: map<string, nat>, cache: Cache.Items)

  const NO_MEM := Mem("", 0, true, map[], map[], map[], [])

  /** Tables, process memory while up, and what no program variable records: the pools on which a
      job's call may still be executing, the calls made per job, the results backends served, and the
      pools on which a crash or an import may have hidden a call from recovery. */
  datatype World = World(disk: Disk, up: bool, mem: Mem, remote: map<string, string>, calls: map<string, nat>,
                         served: map<string, Cache.Hit>, exposed: set<string>)

  function Plus(use: map<string, nat>, k: string): map<string, nat> { use[k := Used(use, k) + 1] }

  function Minus(use: map<string, nat>, k: string): map<string, nat> {
    if k in use && use[k] > 0 then use[k := use[k] - 1] else use
  }

  // ---- a job's standing ----

  predicate Has(d: Disk, id: string) { id in d.jobs && d.jobs[id].job.sessionId in d.sessions }

  function SessionOf(d: Disk, id: string): Session
    requires Has(d, id)
  {
    d.sessions[d.jobs[id].job.sessionId]
  }

  function ReasonNow(w: World, id: string): Option<Reason>
    requires Has(w.disk, id)
  {
    w.disk.jobs[id].job.InvalidReason(SessionOf(w.disk, id), w.mem.now, w.mem.clockId)
  }

  predicate InState(d: Disk, id: string, s: JobState) { id in d.jobs && StateOf(d, id) == s }

  predicate DepsAlive(d: Disk, deps: seq<string>) {
    forall x :: x in deps ==> x in d.jobs && (Pending(StateOf(d, x)) || Delivered(StateOf(d, x)))
  }

  predicate DepsDone(d: Disk, deps: seq<string>) {
    forall x :: x in deps ==> x in d.jobs && Delivered(StateOf(d, x))
  }

  function ForModel(endpoints: seq<Endpoint>, model: string): seq<Endpoint> {
    if endpoints == [] then []
    else (if endpoints[0].model == model then [endpoints[0]] else []) + ForModel(endpoints[1..], model)
  }

  function AtSites(endpoints: seq<Endpoint>, sites: seq<string>): seq<Endpoint> {
    if endpoints == [] then []
    else (if endpoints[0].site in sites then [endpoints[0]] else []) + AtSites(endpoints[1..], sites)
  }

  /** The configured endpoints that may take a job. */
  function Allowed(cfg: Config, job: Job): seq<Endpoint> {
    AtSites(ForModel(cfg.endpoints, job.model), job.sites)
  }

  // ---- sessions ----

  datatype Out<T> = Out(world: World, result: Result<T>)

  function OpenSession(cfg: Config, w: World, sid: string, task: string): Out<Session> {
    var known := sid in w.disk.sessions;
    if known && w.disk.sessions[sid].active then Out(w, Err(Permission)) else
    var s := Session(cfg.tenant, sid, if known then w.disk.sessions[sid].epoch + 1 else 0, task, w.mem.clockId, true,
                     w.mem.now, None);
    Out(w.(disk := PutSession(w.disk, s)), Ok(s))
  }

  predicate Current(w: World, sid: string, epoch: nat) {
    && sid in w.disk.sessions
    && w.disk.sessions[sid].epoch == epoch && w.disk.sessions[sid].clockId == w.mem.clockId && w.disk.sessions[sid].active
  }

  /** The compare-and-swap half of `advance_session`; the expiry scan follows as its own steps. */
  function AdvanceSession(w: World, sid: string, expected: nat, task: string, close: bool): Out<Session> {
    if sid !in w.disk.sessions then Out(w, Err(Key))
    else if !Current(w, sid, expected) then Out(w, Err(Permission))
    else
      var prior := w.disk.sessions[sid];
      var s := Session(prior.tenant, sid, prior.epoch + 1, task, w.mem.clockId, !close, w.mem.now, None);
      Out(w.(disk := PutSession(w.disk, s)), Ok(s))
  }

  function Heartbeat(w: World, sid: string, expected: nat, buffer: Option<nat>): Out<Session> {
    if sid !in w.disk.sessions then Out(w, Err(Key))
    else if !Current(w, sid, expected) then Out(w, Err(Permission))
    else if buffer.Some? && !(w.mem.now <= buffer.value <= w.mem.now + 60_000_000_000) then Out(w, Err(Error.Value))
    else
      var s := w.disk.sessions[sid].(updated := w.mem.now, bufferUntil := buffer);
      Out(w.(disk := w.disk.(sessions := w.disk.sessions[sid := s])), Ok(s))
  }

  // ---- submission ----

  predicate SameLine(a: Job, b: Job) {
    a.sessionId == b.sessionId && a.epoch == b.epoch && a.taskRevision == b.taskRevision
  }

  predicate SourcesWithin(parent: Job, child: Job) {
    forall o :: o in parent.observations ==> exists c :: c in child.observations && c.Identity() == o.Identity()
  }

  /** The first dependency that is unknown, of another generation, or whose sources are omitted. */
  function CheckDeps(d: Disk, job: Job, deps: seq<string>): Option<Error> {
    if deps == [] then None
    else if deps[0] !in d.jobs then Some(Key)
    else if !SameLine(d.jobs[deps[0]].job, job) then Some(Permission)
    else if !SourcesWithin(d.jobs[deps[0]].job, job) then Some(Permission)
    else CheckDeps(d, job, deps[1..])
  }

  predicate SameSlot(a: Job, b: Job) {
    SameLine(a, b) && a.replaceKey == b.replaceKey && a.model == b.model && a.operation == b.operation
  }

  /** Some queued or running job depends on this one. */
  predicate DependedOn(d: Disk, id: string) {
    exists c :: c in d.jobs && Pending(StateOf(d, c)) && id in d.jobs[c].job.dependencies
  }

  datatype Replacement = Replacement(newer: bool, superseded: seq<string>)

  /** Queued jobs the new one replaces, and whether one of them is as recent. */
  function ScanReplace(d: Disk, job: Job, ids: seq<string>): Replacement {
    if ids == [] then Replacement(false, []) else
    var n := |ids| - 1;
    var r := ScanReplace(d, job, ids[..n]);
    if ids[n] !in d.jobs || !SameSlot(d.jobs[ids[n]].job, job) then r
    else if d.jobs[ids[n]].job.snapshot >= job.snapshot then r.(newer := true)
    else if !DependedOn(d, ids[n]) then r.(superseded := r.superseded + [ids[n]])
    else r
  }

  function Or(a: Option<Reason>, condition: bool, b: Reason): Option<Reason> {
    if a.None? && condition then Some(b) else a
  }

  function QueuedIds(d: Disk): seq<string> { InStates(d, d.order, {Queued}) }

  datatype Verdict = Verdict(reason: Option<Reason>, superseded: seq<string>)

  function Judge(cfg: Config, w: World, job: Job): Verdict
    requires job.sessionId in w.disk.sessions
  {
    var r0 := job.InvalidReason(w.disk.sessions[job.sessionId], w.mem.now, w.mem.clockId);
    var scan := if job.replaceKey.Some? && r0.None?
                then ScanReplace(w.disk, job, QueuedIds(w.disk)) else Replacement(false, []);
    var r1 := if scan.newer then Some(SupersededByNewerSnapshot) else r0;
    var r2 := Or(r1, |QueuedIds(w.disk)| - |scan.superseded| >= cfg.maxQueue, QueueCapacity);
    var eps := Allowed(cfg, job);
    var r3 := Or(r2, eps == [], NoAllowedEndpoint);
    var r4 := Or(r3, eps != [] && !cfg.allowNetwork && (forall e :: e in eps ==> !e.mock && e.id !in cfg.custom),
        NetworkNotAuthorized);
    Verdict(r4, scan.superseded)
  }

  function Supersede(d: Disk, ids: seq<string>): Disk
    decreases |ids|
  {
    if ids == [] then d else Supersede(SetState(d, ids[0], Superseded, ExplicitReplacement), ids[1..])
  }

  /** The checks of `submit` that raise before anything is written. */
  function Refusal(cfg: Config, w: World, job: Job): Option<Error> {
    if !job.Valid() then Some(Error.Value)
    else if w.mem.closed || job.tenant != cfg.tenant then Some(Permission)
    else if job.id in w.disk.jobs then if w.disk.jobs[job.id].job != job then Some(Error.Value) else None
    else if job.model !in cfg.models then Some(Error.Value)
    else if |w.disk.jobs| >= cfg.maxJobs then Some(Permission)
    else if job.sessionId !in w.disk.sessions then Some(Key)
    else CheckDeps(w.disk, job, job.dependencies)
  }

  function Submit(cfg: Config, w: World, job: Job): Out<Receipt> {
    var refusal := Refusal(cfg, w, job);
    if refusal.Some? then Out(w, Err(refusal.value))
    else if job.id in w.disk.jobs then Out(w, Ok(w.disk.jobs[job.id].receipt))
    else
      var v := Judge(cfg, w, job);
      var receipt := NewReceipt(job, v.reason, w.mem.now);
      match AddJob(w.disk, job, receipt)
      case None => Out(w, Err(Error.Value))
      case Some(d) => Out(w.(disk := if v.reason.None? then Supersede(d, v.superseded) else d), Ok(receipt))
  }

  // ---- the scheduler's steps ----

  /** `_expire` on one job. In-flight work keeps its slot. */
  function Expire(w: World, id: string): World {
    if !(Has(w.disk, id) && Pending(StateOf(w.disk, id))) then w else
    match ReasonNow(w, id)
    case None => w
    case Some(reason) => w.(disk := SetState(w.disk, id, Lapse(reason), reason))
  }

  /** The dependency scan of `tick` on one queued job. */
  function Prune(w: World, id: string): World {
    if !w.mem.closed && InState(w.disk, id, Queued) && !DepsAlive(w.disk, w.disk.jobs[id].job.dependencies)
    then w.(disk := SetState(w.disk, id, Rejected, DependencyFailed))
    else w
  }

  function Finished(r: Receipt, hit: Cache.Hit, now: nat): Receipt {
    r.(state := Succeeded, prediction := Some(hit.payload), completed := Some(now), computed := Some(hit.computed),
       cacheHit := true, usage := Some(Usage(Some(0))))
  }

  function Started(r: Receipt, ep: Endpoint, now: nat): Receipt {
    r.(state := Running, endpoint := Some(ep.id), started := Some(now))
  }

  function Dispatch(w: World, id: string, ep: Endpoint, key: Option<CacheKey>): World
    requires id in w.disk.jobs
  {
    var d := SetReceipt(Reserve(w.disk, id, ep), id, Started(w.disk.jobs[id].receipt, ep, w.mem.now));
    w.(disk := d, mem := w.mem.(tasks := w.mem.tasks[id := Task(ep, key, false)],
                                poolUse := Plus(w.mem.poolUse, ep.pool), endpointUse := Plus(w.mem.endpointUse, ep.id)))
  }

  predicate Servable(w: World, id: string) {
    !w.mem.closed && Has(w.disk, id) && StateOf(w.disk, id) == Queued && DepsDone(w.disk, w.disk.jobs[id].job.dependencies)
  }

  function KeyFor(cfg: Config, job: Job): Option<CacheKey> {
    if job.model in cfg.models then KeyOf(job, cfg.models[job.model]) else None
  }

  function Place(cfg: Config, w: World, id: string): Choice
    requires cfg.Valid() && Has(w.disk, id)
  {
    var job := w.disk.jobs[id].job;
    var eps := ForModel(cfg.endpoints, job.model);
    ForModelWithin(cfg.endpoints, job.model);
    Choose(eps, w.mem.now, job.Latest(SessionOf(w.disk, id)), job.sites, cfg.slots, w.mem.poolUse, w.mem.endpointUse,
           w.disk.quarantined, cfg.placement)
  }

  lemma {:induction false} ForModelWithin(endpoints: seq<Endpoint>, model: string)
    ensures forall e :: e in ForModel(endpoints, model) <==> e in endpoints && e.model == model
  {
    if endpoints != [] {
      ForModelWithin(endpoints[1..], model);
      assert endpoints == [endpoints[0]] + endpoints[1..];
    }
  }

  /** One pass of `tick`'s loop over the ready jobs: lapse, cache hit, no place, no budget, or dispatch. */
  ghost function Serve(cfg: Config, w: World, id: string): World
    requires cfg.Valid()
  {
    if !Servable(w, id) then w else
    var reason := ReasonNow(w, id);
    if reason.Some? then w.(disk := SetState(w.disk, id, Lapse(reason.value), reason.value)) else
    var row := w.disk.jobs[id];
    var key := KeyFor(cfg, row.job);
    var lookup := Cache.Get(cfg.limits, w.mem.cache, key, w.mem.now);
    var w1 := w.(mem := w.mem.(cache := lookup.data));
    if lookup.hit.Some? then w1.(disk := SetReceipt(w.disk, id, Finished(row.receipt, lookup.hit.value, w.mem.now))) else
    var place := Place(cfg, w, id);
    if place.NoEndpoint? then w1
    else if !CanReserve(w.disk, place.endpoint.reserve)
    then w1.(disk := SetState(w.disk, id, Rejected, AttemptOrCostCeiling))
    else if id in w.disk.attempts then w1
    else Dispatch(w1, id, place.endpoint, key)
  }

  // ---- a task's two stretches ----

  /** `finally`: the slot is given back. */
  function EndTask(m: Mem, id: string): Mem
    requires id in m.tasks
  {
    m.(tasks := m.tasks - {id}, poolUse := Minus(m.poolUse, m.tasks[id].endpoint.pool),
       endpointUse := Minus(m.endpointUse, m.tasks[id].endpoint.id))
  }

  /** Up to the first await: the job is looked at again, then sent or withdrawn at no charge. */
  function Begin(w: World, id: string): World {
    if !(id in w.mem.tasks && !w.mem.tasks[id].sent && Has(w.disk, id)) then w else
    var task := w.mem.tasks[id];
    match ReasonNow(w, id)
    case Some(reason) =>
      w.(disk := SetState(Settle(w.disk, id, Some(0)), id, Lapse(reason), reason), mem := EndTask(w.mem, id))
    case None =>
      w.(mem := w.mem.(tasks := w.mem.tasks[id := task.(sent := true)]),
         remote := w.remote[id := task.endpoint.pool], calls := w.calls[id := Used(w.calls, id) + 1])
  }

  datatype Ending = NotSent | KnownEnded | Unconfirmed

  datatype Outcome = Returned(prediction: Prediction) | Raised(code: string, ending: Ending)

  /** Content stamped outside the call is treated as a failure whose end is known. */
  function Checked(r: Receipt, outcome: Outcome, now: nat): Outcome {
    if outcome.Returned? && outcome.prediction.firstContent.Some?
       && !(r.started.Some? && r.started.value <= outcome.prediction.firstContent.value <= now)
    then Raised("invalid_first_content_clock", KnownEnded) else outcome
  }

  function Completed(r: Receipt, reason: Option<Reason>, p: Prediction, now: nat): Receipt {
    r.(state := if r.state != Running then r.state else if reason.Some? then Lapse(reason.value) else Succeeded,
       reason := if r.state != Running then r.reason else reason,
       completed := Some(now), computed := Some(now), prediction := Some(p.payload), usage := Some(p.usage),
       firstContent := p.firstContent)
  }

  function Complete(cfg: Config, w: World, id: string, p: Prediction): World
    requires id in w.mem.tasks && Has(w.disk, id)
  {
    var done := Completed(w.disk.jobs[id].receipt, ReasonNow(w, id), p, w.mem.now);
    var m := EndTask(w.mem, id);
    w.(disk := SetReceipt(Settle(w.disk, id, p.usage.cost), id, done),
       mem := if done.state == Succeeded
              then m.(cache := Cache.Put(cfg.limits, w.mem.cache, w.mem.tasks[id].key, p.payload, w.mem.now)) else m,
       remote := w.remote - {id},
       served := if done.state == Succeeded then w.served[id := Cache.Hit(p.payload, w.mem.now)] else w.served)
  }

  function Aborted(r: Receipt, code: string, ending: Ending, now: nat): Receipt {
    r.(state := if r.state != Running then r.state else if ending == Unconfirmed then Unknown else Failed,
       reason := Some(BackendCode(code)), completed := Some(now))
  }

  function Abort(w: World, id: string, code: string, ending: Ending): World
    requires id in w.mem.tasks && Has(w.disk, id)
  {
    var d := SetReceipt(Settle(w.disk, id, if ending == NotSent then Some(0) else None), id,
                        Aborted(w.disk.jobs[id].receipt, code, ending, w.mem.now));
    w.(disk := if ending == Unconfirmed then d.(quarantined := d.quarantined + {w.mem.tasks[id].endpoint.pool}) else d,
       mem := EndTask(w.mem, id), remote := if ending == Unconfirmed then w.remote else w.remote - {id})
  }

  /** From the backend's answer to the end of `_run`. */
  function Finish(cfg: Config, w: World, id: string, outcome: Outcome): World {
    if !(id in w.mem.tasks && w.mem.tasks[id].sent && Has(w.disk, id)) then w else
    match Checked(w.disk.jobs[id].receipt, outcome, w.mem.now)
    case Returned(p) => Complete(cfg, w, id, p)
    case Raised(code, ending) => Abort(w, id, code, ending)
  }

  // ---- consumers ----

  function Cancel(w: World, id: string): Out<Receipt> {
    if id !in w.disk.jobs then Out(w, Err(Key))
    else if StateOf(w.disk, id) in {Queued, Running, Succeeded}
    then
      var d := SetState(w.disk, id, Cancelled, ConsumerCancelled);
      Out(w.(disk := d), Ok(d.jobs[id].receipt))
    else Out(w, Ok(w.disk.jobs[id].receipt))
  }

  function Consume(w: World, id: string, who: string): Out<Receipt> {
    if !Has(w.disk, id) then Out(w, Err(Key))
    else if ReasonNow(w, id).Some? then Out(w, Err(Permission))
    else
      var r := w.disk.jobs[id].receipt;
      if !Delivered(r.state) then Out(w, Err(Permission))
      else if r.consumedBy.Some? then if r.consumedBy.value != who then Out(w, Err(Permission)) else Out(w, Ok(r))
      else
        var done := r.(state := Consumed, consumedBy := Some(who), consumedAt := Some(w.mem.now));
        Out(w.(disk := SetReceipt(w.disk, id, done)), Ok(done))
  }

  // ---- shutdown, crash, recovery, operator ----

  function ShutOne(w: World, id: string): World {
    if w.mem.closed && InState(w.disk, id, Queued)
    then w.(disk := SetState(w.disk, id, Cancelled, CoordinatorShutdown)) else w
  }

  function Crash(w: World): World { w.(up := false, mem := NO_MEM) }

  function Boot(w: World, clockId: string, now: nat): World {
    w.(disk := Recover(w.disk), up := true, mem := Mem(clockId, now, false, map[], map[], map[], []))
  }

  /** The operator vouches that unconfirmed work on the pool has ended. */
  function Release(w: World, pool: string): World {
    w.(disk := w.disk.(quarantined := w.disk.quarantined - {pool}), exposed := w.exposed - {pool},
       remote := map j | j in w.remote && (j in w.mem.tasks || w.remote[j] != pool) :: w.remote[j])
  }

  // ---- what may hide a call from recovery ----

  /** The handler for an unconfirmed call commits three times: attempt, receipt, quarantine. */
  function HandlerCut(d: Disk, id: string, pool: string, code: string, now: nat, writes: nat): Disk
    requires id in d.jobs
  {
    var d1 := if writes >= 1 then Settle(d, id, None) else d;
    var d2 := if writes >= 2 then SetReceipt(d1, id, Aborted(d.jobs[id].receipt, code, Unconfirmed, now)) else d1;
    if writes >= 3 then d2.(quarantined := d2.quarantined + {pool}) else d2
  }

  /** A crash inside the handler. Between its first and last write the pool's call may be hidden. */
  function HandlerCrash(w: World, id: string, code: string, writes: nat): World
    requires id in w.disk.jobs && id in w.mem.tasks
  {
    var pool := w.mem.tasks[id].endpoint.pool;
    Crash(w).(disk := HandlerCut(w.disk, id, pool, code, w.mem.now, writes),
              exposed := if 1 <= writes <= 2 && pool !in w.disk.quarantined then w.exposed + {pool} else w.exposed)
  }

  /** Pools of attempts that were still in flight, as far as the ledger knows, when their charge is imported. */
  function StillReserved(d: Disk, entries: seq<Entry>): set<string> {
    set i | 0 <= i < |entries| && entries[i].id in d.attempts && d.attempts[entries[i].id].disposition == Reserved
            && d.attempts[entries[i].id].pool !in d.quarantined :: d.attempts[entries[i].id].pool
  }

  /** Offline import of a batch: all of it or nothing. */
  function Import(w: World, entries: seq<Entry>): World {
    if !Reconcilable(w.disk, entries) then w
    else w.(disk := Reconcile(w.disk, entries), exposed := w.exposed + StillReserved(w.disk, entries))
  }
}
