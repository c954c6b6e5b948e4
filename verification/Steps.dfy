/** Every step of the coordinator keeps the invariant. */
module Steps {
  import opened Basics
  import opened Contracts
  import opened Scheduling
  import opened Ledger
  import opened Coordinator
  import opened Invariant
  import Cache

  // ---- steps that write one receipt ----

  function WithReceipt(w: World, id: string, r: Receipt): World { w.(disk := SetReceipt(w.disk, id, r)) }

  /** A receipt that may replace the one on file: same job, nothing revived, no prediction lost, and one
      gained only by a job whose dependencies have all produced theirs. */
  ghost predicate MayWrite(cfg: Config, w: World, id: string, r: Receipt) {
    && id in w.disk.jobs
    && Local(cfg, w.up, id, ViewOf(w, id).(receipt := r), Cover(w))
    && (w.disk.jobs[id].receipt.prediction.Some? ==> r.prediction == w.disk.jobs[id].receipt.prediction)
    && (r.prediction.Some? && w.disk.jobs[id].receipt.prediction.None? ==> Fed(w.disk, id))
    && (r.state == Queued ==> StateOf(w.disk, id) == Queued)
    && (r.state == Running ==> StateOf(w.disk, id) == Running)
    && (Alive(r.state) ==> Alive(StateOf(w.disk, id)))
  }

  lemma WriteTouches(cfg: Config, w: World, id: string, r: Receipt)
    requires MayWrite(cfg, w, id, r)
    ensures Touches(w, WithReceipt(w, id, r), id)
    ensures ViewOf(WithReceipt(w, id, r), id) == ViewOf(w, id).(receipt := r)
  {
  }

  lemma InvLocal(cfg: Config, w: World, id: string)
    requires Inv(cfg, w) && id in w.disk.jobs
    ensures Local(cfg, w.up, id, ViewOf(w, id), Cover(w))
  {
    LocalOf(cfg, w, id);
  }

  lemma WriteSolvent(cfg: Config, w: World, id: string, r: Receipt)
    requires Solvent(w.disk) && Owned(w) && Seats(cfg, w) && MayWrite(cfg, w, id, r)
    ensures Solvent(SetReceipt(w.disk, id, r)) && Seats(cfg, WithReceipt(w, id, r)) && Owned(WithReceipt(w, id, r))
  {
    var n := WithReceipt(w, id, r);
    WriteTouches(cfg, w, id, r);
    SolventAfter(w, n, id);
    SeatsKept(cfg, w, n, id);
  }

  lemma WriteCache(cfg: Config, w: World, id: string, r: Receipt)
    requires CacheOk(cfg, w) && MayWrite(cfg, w, id, r)
    ensures CacheOk(cfg, WithReceipt(w, id, r))
  {
    WriteTouches(cfg, w, id, r);
    CacheKept(cfg, w, WithReceipt(w, id, r), id);
  }

  lemma WriteSound(cfg: Config, w: World, id: string, r: Receipt)
    requires Solvent(w.disk) && Owned(w) && Seats(cfg, w) && Progress(w.disk)
    requires w.up ==> UseOk(cfg, w.mem) && CacheOk(cfg, w)
    requires MayWrite(cfg, w, id, r)
    ensures Sound(cfg, w, WithReceipt(w, id, r), id)
  {
    WriteTouches(cfg, w, id, r);
    WriteSolvent(cfg, w, id, r);
    if w.up { WriteCache(cfg, w, id, r); }
  }

  lemma WriteKeeps(cfg: Config, w: World, id: string, r: Receipt)
    requires Inv(cfg, w) && MayWrite(cfg, w, id, r)
    ensures Inv(cfg, WithReceipt(w, id, r))
  {
    hide MayWrite, Sound, Locals, Solvent, Seats, UseOk, CacheOk, Graph, Progress, OrderOk, SessionsOk, Owned;
    WriteSound(cfg, w, id, r);
    OneJob(cfg, w, WithReceipt(w, id, r), id);
  }

  lemma DeadLocal(cfg: Config, up: bool, id: string, v: View, q: set<string>, state: JobState, reason: Reason)
    requires Local(cfg, up, id, v, q) && Dead(state) && v.receipt.state != Consumed
    ensures Local(cfg, up, id, v.(receipt := v.receipt.(state := state, reason := Some(reason))), q)
  {
  }

  lemma ConsumedLocal(cfg: Config, up: bool, id: string, v: View, q: set<string>, who: string, now: nat)
    requires Local(cfg, up, id, v, q) && v.receipt.state == Succeeded
    ensures Local(cfg, up, id, v.(receipt := v.receipt.(state := Consumed, consumedBy := Some(who),
        consumedAt := Some(now))), q)
  {
  }

  lemma LocalOf(cfg: Config, w: World, id: string)
    requires Locals(cfg, w) && id in w.disk.jobs
    ensures Local(cfg, w.up, id, ViewOf(w, id), Cover(w))
  {
  }

  /** Giving a job up: any state may be overwritten by a dead one, except that of a consumed result. */
  lemma DeadenKeeps(cfg: Config, w: World, id: string, state: JobState, reason: Reason)
    requires Inv(cfg, w) && id in w.disk.jobs && Dead(state) && StateOf(w.disk, id) != Consumed
    ensures Inv(cfg, w.(disk := SetState(w.disk, id, state, reason)))
  {
    hide Inv, Solvent;
    var r := w.disk.jobs[id].receipt.(state := state, reason := Some(reason));
    InvLocal(cfg, w, id);
    DeadLocal(cfg, w.up, id, ViewOf(w, id), Cover(w), state, reason);
    WriteKeeps(cfg, w, id, r);
  }

  lemma ExpireKeeps(cfg: Config, w: World, id: string)
    requires Inv(cfg, w)
    ensures Inv(cfg, Expire(w, id))
  {
    hide Inv;
    if Has(w.disk, id) && Pending(StateOf(w.disk, id)) && ReasonNow(w, id).Some? {
      DeadenKeeps(cfg, w, id, Lapse(ReasonNow(w, id).value), ReasonNow(w, id).value);
    }
  }

  lemma PruneKeeps(cfg: Config, w: World, id: string)
    requires Inv(cfg, w)
    ensures Inv(cfg, Prune(w, id))
  {
    hide Inv;
    if Prune(w, id) != w { DeadenKeeps(cfg, w, id, Rejected, DependencyFailed); }
  }

  lemma CancelKeeps(cfg: Config, w: World, id: string)
    requires Inv(cfg, w)
    ensures Inv(cfg, Cancel(w, id).world)
  {
    hide Inv;
    if id in w.disk.jobs && StateOf(w.disk, id) in {Queued, Running, Succeeded} {
      DeadenKeeps(cfg, w, id, Cancelled, ConsumerCancelled);
    }
  }

  lemma ShutOneKeeps(cfg: Config, w: World, id: string)
    requires Inv(cfg, w)
    ensures Inv(cfg, ShutOne(w, id))
  {
    hide Inv;
    if ShutOne(w, id) != w { DeadenKeeps(cfg, w, id, Cancelled, CoordinatorShutdown); }
  }

  lemma ConsumeKeeps(cfg: Config, w: World, id: string, who: string)
    requires Inv(cfg, w)
    ensures Inv(cfg, Consume(w, id, who).world)
  {
    hide Inv;
    if Has(w.disk, id) && ReasonNow(w, id).None? && Delivered(StateOf(w.disk, id))
       && w.disk.jobs[id].receipt.consumedBy.None? {
      InvLocal(cfg, w, id);
      ConsumedLocal(cfg, w.up, id, ViewOf(w, id), Cover(w), who, w.mem.now);
      WriteKeeps(cfg, w, id, w.disk.jobs[id].receipt.(state := Consumed, consumedBy := Some(who),
          consumedAt := Some(w.mem.now)));
    }
  }

  // ---- the cache ----

  lemma CacheSources(cfg: Config, w: World, data: Cache.Items)
    requires CacheOk(cfg, w) && Cache.Fits(cfg.limits, data)
    requires forall i :: i in data ==> i in w.mem.cache
    ensures CacheOk(cfg, w.(mem := w.mem.(cache := data)))
  {
    var n := w.(mem := w.mem.(cache := data));
    forall item | item in n.mem.cache ensures exists x :: Source(cfg, n, item, x) {
      var x :| Source(cfg, w, item, x);
      assert Source(cfg, n, item, x);
    }
  }

  lemma CacheStep(cfg: Config, w: World, data: Cache.Items)
    requires Inv(cfg, w) && w.up && Cache.Fits(cfg.limits, data)
    requires forall i :: i in data ==> i in w.mem.cache
    ensures Inv(cfg, w.(mem := w.mem.(cache := data)))
  {
    hide Solvent, SlotOrder, CacheOk, Local, OrderOk, Graph, Progress, SessionsOk, Cache.Fits;
    var n := w.(mem := w.mem.(cache := data));
    CacheSources(cfg, w, data);
    forall id | id in w.disk.jobs ensures Local(cfg, n.up, id, ViewOf(n, id), Cover(n)) { LocalOf(cfg, w, id); }
    forall p | p in cfg.slots && p !in n.exposed ensures |BusyOn(n, p)| <= cfg.slots[p] { assert BusyOn(n, p) == BusyOn(w, p); }
  }

  // ---- slots ----

  lemma OnAdded(tasks: map<string, Task>, id: string, t: Task, p: string)
    requires id !in tasks
    ensures |TasksOn(tasks[id := t], p)| == |TasksOn(tasks, p)| + if p == t.endpoint.pool then 1 else 0
  {
    assert TasksOn(tasks[id := t], p) == TasksOn(tasks, p) + if p == t.endpoint.pool then {id} else {};
  }

  lemma AtAdded(tasks: map<string, Task>, id: string, t: Task, e: string)
    requires id !in tasks
    ensures |TasksAt(tasks[id := t], e)| == |TasksAt(tasks, e)| + if e == t.endpoint.id then 1 else 0
  {
    assert TasksAt(tasks[id := t], e) == TasksAt(tasks, e) + if e == t.endpoint.id then {id} else {};
  }

  lemma CountsAdded(m: Mem, id: string, t: Task)
    requires forall p :: Used(m.poolUse, p) == |TasksOn(m.tasks, p)|
    requires forall e :: Used(m.endpointUse, e) == |TasksAt(m.tasks, e)|
    requires id !in m.tasks
    ensures forall p :: Used(Plus(m.poolUse, t.endpoint.pool), p) == |TasksOn(m.tasks[id := t], p)|
    ensures forall e :: Used(Plus(m.endpointUse, t.endpoint.id), e) == |TasksAt(m.tasks[id := t], e)|
  {
    hide TasksOn, TasksAt;
    forall p
      ensures Used(Plus(m.poolUse, t.endpoint.pool), p) == |TasksOn(m.tasks[id := t], p)|
    {
      OnAdded(m.tasks, id, t, p);
    }
    forall e
      ensures Used(Plus(m.endpointUse, t.endpoint.id), e) == |TasksAt(m.tasks[id := t], e)|
    {
      AtAdded(m.tasks, id, t, e);
    }
  }

  lemma TaskAdded(cfg: Config, m: Mem, id: string, t: Task)
    requires cfg.Valid() && UseOk(cfg, m) && id !in m.tasks
    requires t.endpoint in cfg.endpoints && Used(m.endpointUse, t.endpoint.id) < t.endpoint.maxInflight
    requires Used(m.poolUse, t.endpoint.pool) < cfg.slots[t.endpoint.pool]
    ensures UseOk(cfg, m.(tasks := m.tasks[id := t], poolUse := Plus(m.poolUse, t.endpoint.pool),
                          endpointUse := Plus(m.endpointUse, t.endpoint.id)))
  {
    CountsAdded(m, id, t);
    hide TasksOn, TasksAt, Used, Plus, Config.Valid;
    forall e | e in cfg.endpoints ensures |TasksAt(m.tasks[id := t], e.id)| <= e.maxInflight {
      AtAdded(m.tasks, id, t, e.id);
      SameEndpoint(cfg, e, t.endpoint);
    }
    forall p | p in cfg.slots ensures |TasksOn(m.tasks[id := t], p)| <= cfg.slots[p] { OnAdded(m.tasks, id, t, p); }
  }

  lemma SameEndpoint(cfg: Config, a: Endpoint, b: Endpoint)
    requires cfg.Valid() && a in cfg.endpoints && b in cfg.endpoints
    ensures a.id == b.id ==> a == b
  {
  }

  lemma TaskSent(cfg: Config, m: Mem, id: string)
    requires UseOk(cfg, m) && id in m.tasks
    ensures UseOk(cfg, m.(tasks := m.tasks[id := m.tasks[id].(sent := true)]))
  {
    var tasks := m.tasks[id := m.tasks[id].(sent := true)];
    forall p ensures TasksOn(tasks, p) == TasksOn(m.tasks, p) { }
    forall e ensures TasksAt(tasks, e) == TasksAt(m.tasks, e) { }
  }

  lemma OnDropped(tasks: map<string, Task>, id: string, p: string)
    requires id in tasks
    ensures |TasksOn(tasks - {id}, p)| == |TasksOn(tasks, p)| - if p == tasks[id].endpoint.pool then 1 else 0
  {
    assert p == tasks[id].endpoint.pool ==> id in TasksOn(tasks, p);
    assert TasksOn(tasks - {id}, p) == TasksOn(tasks, p) - if p == tasks[id].endpoint.pool then {id} else {};
  }

  lemma AtDropped(tasks: map<string, Task>, id: string, e: string)
    requires id in tasks
    ensures |TasksAt(tasks - {id}, e)| == |TasksAt(tasks, e)| - if e == tasks[id].endpoint.id then 1 else 0
  {
    assert e == tasks[id].endpoint.id ==> id in TasksAt(tasks, e);
    assert TasksAt(tasks - {id}, e) == TasksAt(tasks, e) - if e == tasks[id].endpoint.id then {id} else {};
  }

  lemma TaskEnded(cfg: Config, m: Mem, id: string)
    requires UseOk(cfg, m) && id in m.tasks
    ensures UseOk(cfg, EndTask(m, id))
  {
    var n := EndTask(m, id);
    forall p ensures Used(n.poolUse, p) == |TasksOn(n.tasks, p)| { OnDropped(m.tasks, id, p); }
    forall e ensures Used(n.endpointUse, e) == |TasksAt(n.tasks, e)| { AtDropped(m.tasks, id, e); }
    forall e | e in cfg.endpoints ensures |TasksAt(n.tasks, e.id)| <= e.maxInflight { AtDropped(m.tasks, id, e.id); }
    forall p | p in cfg.slots ensures |TasksOn(n.tasks, p)| <= cfg.slots[p] { OnDropped(m.tasks, id, p); }
  }

  /** On a pool that is not covered, only tasks are busy. */
  lemma OnlyTasksBusy(cfg: Config, w: World, p: string)
    requires w.up && Locals(cfg, w) && Owned(w) && p !in Cover(w)
    ensures BusyOn(w, p) <= TasksOn(w.mem.tasks, p)
  {
    forall j | j in BusyOn(w, p) ensures j in TasksOn(w.mem.tasks, p) {
      LocalOf(cfg, w, j);
    }
  }
}
