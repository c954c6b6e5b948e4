/** The coordinator's invariant. What it says of one job is a predicate on that job's view alone,
    so a step that touches one job is checked on one view. */
module Invariant {
  import opened Basics
  import opened Contracts
  import opened Scheduling
  import opened Ledger
  import opened Coordinator
  import Cache

  /** All that the world holds about one job. */
  datatype View = View(job: Job, receipt: Receipt, attempt: Option<Attempt>, task: Option<Task>,
                       remote: Option<string>, calls: nat, served: Option<Cache.Hit>)

  function At<T>(m: map<string, T>, k: string): Option<T> { if k in m then Some(m[k]) else None }

  function ViewOf(w: World, id: string): View
    requires id in w.disk.jobs
  {
    View(w.disk.jobs[id].job, w.disk.jobs[id].receipt, At(w.disk.attempts, id), At(w.mem.tasks, id),
         At(w.remote, id), Used(w.calls, id), At(w.served, id))
  }

  /** Pools behind a quarantine, or known to have lost one. */
  function Cover(w: World): set<string> { w.disk.quarantined + w.exposed }

  // ---- one job ----

  ghost predicate ReceiptOk(id: string, v: View) {
    && v.job.id == id && v.receipt.jobId == id && v.receipt.request == v.job
    && (Delivered(v.receipt.state) ==> v.receipt.prediction.Some?)
    && (v.receipt.consumedBy.Some? <==> v.receipt.state == Consumed)
  }

  ghost predicate AttemptOk(v: View) {
    && (v.attempt.Some? ==> (v.attempt.value.actual.Some? <==> v.attempt.value.disposition == Settled))
    && (v.receipt.state == Running ==> v.attempt.Some?)
    && v.calls <= 1 && (v.calls == 1 ==> v.attempt.Some?)
    && (v.remote.Some? ==> v.attempt.Some? && v.remote.value == v.attempt.value.pool && v.calls == 1)
    && (v.served.Some? ==>
          v.attempt.Some? && v.calls == 1 && v.receipt.prediction == Some(v.served.value.payload)
          && v.receipt.computed == Some(v.served.value.computed) && !v.receipt.cacheHit)
  }

  /** The attempt of a task in flight. */
  ghost predicate TaskOk(cfg: Config, v: View, t: Task) {
    && t.endpoint in cfg.endpoints && v.attempt.Some?
    && v.attempt.value.disposition == Reserved && v.attempt.value.pool == t.endpoint.pool
    && v.receipt.started.Some? && v.receipt.prediction.None? && !v.receipt.cacheHit && v.served.None?
    && v.receipt.state != Queued && !Delivered(v.receipt.state)
    && t.key == KeyFor(cfg, v.job)
    && (if t.sent then v.calls == 1 && v.remote == Some(t.endpoint.pool) else v.calls == 0 && v.remote.None?)
  }

  /** While the coordinator runs: pending work is where its state says, and unconfirmed work without a
      task is on a covered pool. */
  ghost predicate UpOk(cfg: Config, v: View, cover: set<string>) {
    && (v.receipt.state == Running ==> v.task.Some?)
    && (v.receipt.state == Queued ==>
          v.attempt.None? && v.receipt.prediction.None? && !v.receipt.cacheHit && Allowed(cfg, v.job) != [])
    && (v.attempt.Some? && v.attempt.value.disposition == Reserved ==> v.task.Some?)
    && (v.task.Some? ==> TaskOk(cfg, v, v.task.value))
    && (v.remote.Some? && v.task.None? ==> v.remote.value in cover)
  }

  /** While it is down: whatever may still run remotely will be quarantined by recovery if its pool is
      not covered already. */
  ghost predicate DownOk(v: View, cover: set<string>) {
    && v.task.None?
    && (v.remote.Some? ==> v.remote.value in cover || (v.attempt.Some? && v.attempt.value.disposition == Reserved))
  }

  ghost predicate Local(cfg: Config, up: bool, id: string, v: View, cover: set<string>) {
    ReceiptOk(id, v) && AttemptOk(v) && if up then UpOk(cfg, v, cover) else DownOk(v, cover)
  }

  ghost predicate Locals(cfg: Config, w: World) {
    forall id :: id in w.disk.jobs ==> Local(cfg, w.up, id, ViewOf(w, id), Cover(w))
  }

  // ---- the tables ----

  ghost predicate OrderOk(d: Disk) {
    && (forall i :: 0 <= i < |d.order| ==> d.order[i] in d.jobs && d.jobs[d.order[i]].rowid == i)
    && (forall id :: id in d.jobs ==> d.jobs[id].rowid < |d.order| && d.order[d.jobs[id].rowid] == id)
  }

  predicate Alive(s: JobState) { Pending(s) || Delivered(s) }

  ghost predicate SessionsOk(d: Disk) {
    && (forall sid :: sid in d.sessions ==> d.sessions[sid].id == sid)
    && (forall id :: id in d.jobs ==>
          d.jobs[id].job.sessionId in d.sessions
          && (Alive(StateOf(d, id)) ==> d.jobs[id].job.epoch <= d.sessions[d.jobs[id].job.sessionId].epoch))
  }

  ghost predicate Owned(w: World) {
    && w.disk.attempts.Keys <= w.disk.jobs.Keys
    && w.remote.Keys <= w.disk.jobs.Keys && w.mem.tasks.Keys <= w.disk.jobs.Keys
    && w.served.Keys <= w.disk.jobs.Keys && w.calls.Keys <= w.disk.jobs.Keys
    && (!w.up ==> w.mem == NO_MEM)
  }

  // ---- dependencies ----

  predicate EdgeOk(d: Disk, id: string, dep: string)
    requires id in d.jobs
  {
    dep in d.jobs && d.jobs[dep].rowid < d.jobs[id].rowid && SameLine(d.jobs[dep].job, d.jobs[id].job)
    && SourcesWithin(d.jobs[dep].job, d.jobs[id].job)
  }

  ghost predicate Graph(d: Disk) {
    forall id, dep :: id in d.jobs && dep in d.jobs[id].job.dependencies ==> EdgeOk(d, id, dep)
  }

  /** Every direct dependency has produced a prediction. */
  ghost predicate Fed(d: Disk, id: string)
    requires id in d.jobs
  {
    forall dep :: dep in d.jobs[id].job.dependencies ==> dep in d.jobs && d.jobs[dep].receipt.prediction.Some?
  }

  ghost predicate Progress(d: Disk) {
    forall id :: id in d.jobs && (id in d.attempts || d.jobs[id].receipt.prediction.Some?) ==> Fed(d, id)
  }

  // ---- slots ----

  ghost function TasksOn(tasks: map<string, Task>, pool: string): set<string> {
    set j | j in tasks && tasks[j].endpoint.pool == pool
  }

  ghost function TasksAt(tasks: map<string, Task>, endpoint: string): set<string> {
    set j | j in tasks && tasks[j].endpoint.id == endpoint
  }

  /** Jobs that hold, or may still be using, a slot of a pool. */
  ghost function BusyOn(w: World, pool: string): set<string> {
    set j | j in w.disk.attempts && w.disk.attempts[j].pool == pool && (j in w.mem.tasks || j in w.remote)
  }

  ghost predicate Seats(cfg: Config, w: World) {
    forall p :: p in cfg.slots && p !in w.exposed ==> |BusyOn(w, p)| <= cfg.slots[p]
  }

  /** The use counters count exactly what is in flight, which fits every pool and endpoint. */
  ghost predicate UseOk(cfg: Config, m: Mem) {
    && (forall p :: Used(m.poolUse, p) == |TasksOn(m.tasks, p)|)
    && (forall e :: Used(m.endpointUse, e) == |TasksAt(m.tasks, e)|)
    && (forall e :: e in cfg.endpoints ==> |TasksAt(m.tasks, e.id)| <= e.maxInflight)
    && (forall p :: p in cfg.slots ==> |TasksOn(m.tasks, p)| <= cfg.slots[p])
  }

  // ---- cache and queue ----

  /** The item came from this job's backend call. */
  ghost predicate Source(cfg: Config, w: World, item: Cache.Item, j: string) {
    && j in w.served && j in w.disk.jobs
    && KeyFor(cfg, w.disk.jobs[j].job) == Some(item.key) && w.served[j] == Cache.Hit(item.payload, item.computed)
  }

  ghost predicate CacheOk(cfg: Config, w: World) {
    && Cache.Fits(cfg.limits, w.mem.cache)
    && forall item :: item in w.mem.cache ==> exists j :: Source(cfg, w, item, j)
  }

  /** Queued jobs of one replacement slot have strictly increasing snapshots in submission order. */
  ghost predicate SlotOrder(d: Disk) {
    forall a, b :: InState(d, a, Queued) && InState(d, b, Queued) && d.jobs[a].job.replaceKey.Some?
                   && SameSlot(d.jobs[a].job, d.jobs[b].job) && d.jobs[a].rowid < d.jobs[b].rowid ==>
      d.jobs[a].job.snapshot < d.jobs[b].job.snapshot
  }

  ghost function QueuedSet(d: Disk): set<string> { set id | id in d.jobs && StateOf(d, id) == Queued }

  ghost predicate Inv(cfg: Config, w: World) {
    && Owned(w) && OrderOk(w.disk) && SessionsOk(w.disk) && Graph(w.disk) && Progress(w.disk)
    && Locals(cfg, w) && Solvent(w.disk) && Seats(cfg, w)
    && (w.up ==> UseOk(cfg, w.mem) && CacheOk(cfg, w) && SlotOrder(w.disk) && |QueuedSet(w.disk)| <= cfg.maxQueue)
  }

  // ---- steps that touch one job ----

  /** Nothing but job j's own entries changed, and j kept its identity and any prediction it had. */
  ghost predicate Touches(w: World, n: World, j: string) {
    && w.up == n.up
    && n.disk.jobs.Keys == w.disk.jobs.Keys && n.disk.order == w.disk.order && n.disk.sessions == w.disk.sessions
    && w.disk.quarantined <= n.disk.quarantined && n.exposed == w.exposed
    && j in w.disk.jobs
    && (forall id :: id in w.disk.jobs && id != j ==> ViewOf(n, id) == ViewOf(w, id) && n.disk.jobs[id] == w.disk.jobs[id])
    && n.disk.jobs[j] == w.disk.jobs[j].(receipt := n.disk.jobs[j].receipt)
    && (w.disk.jobs[j].receipt.prediction.Some? ==> n.disk.jobs[j].receipt.prediction == w.disk.jobs[j].receipt.prediction)
    && (InState(n.disk, j, Queued) ==> InState(w.disk, j, Queued))
    && (Alive(StateOf(n.disk, j)) ==> Alive(StateOf(w.disk, j)))
  }

  lemma TablesKept(w: World, n: World, j: string)
    requires OrderOk(w.disk) && SessionsOk(w.disk) && Touches(w, n, j)
    ensures OrderOk(n.disk) && SessionsOk(n.disk)
  {
    forall id | id in n.disk.jobs
      ensures n.disk.jobs[id].job == w.disk.jobs[id].job && n.disk.jobs[id].rowid == w.disk.jobs[id].rowid
      ensures Alive(StateOf(n.disk, id)) ==> Alive(StateOf(w.disk, id))
    {
    }
  }

  lemma GraphKept(w: World, n: World, j: string)
    requires Graph(w.disk) && Touches(w, n, j)
    ensures Graph(n.disk)
  {
    forall id, dep | id in n.disk.jobs && dep in n.disk.jobs[id].job.dependencies ensures EdgeOk(n.disk, id, dep) {
      assert n.disk.jobs[id].job == w.disk.jobs[id].job;
      assert EdgeOk(w.disk, id, dep);
    }
  }

  lemma FedKept(w: World, n: World, j: string, id: string)
    requires Touches(w, n, j) && id in w.disk.jobs && Fed(w.disk, id)
    ensures Fed(n.disk, id)
  {
    assert n.disk.jobs[id].job == w.disk.jobs[id].job;
    forall dep | dep in n.disk.jobs[id].job.dependencies
      ensures dep in n.disk.jobs && n.disk.jobs[dep].receipt.prediction.Some?
    {
      assert dep in w.disk.jobs && w.disk.jobs[dep].receipt.prediction.Some?;
      if dep != j { assert n.disk.jobs[dep] == w.disk.jobs[dep]; }
    }
  }

  lemma ProgressKept(w: World, n: World, j: string)
    requires Progress(w.disk) && Touches(w, n, j)
    requires j in n.disk.attempts || n.disk.jobs[j].receipt.prediction.Some? ==> Fed(w.disk, j)
    ensures Progress(n.disk)
  {
    forall id | id in n.disk.jobs && (id in n.disk.attempts || n.disk.jobs[id].receipt.prediction.Some?)
      ensures Fed(n.disk, id)
    {
      if id != j { assert ViewOf(n, id) == ViewOf(w, id); }
      FedKept(w, n, j, id);
    }
  }

  lemma LocalWiden(cfg: Config, up: bool, id: string, v: View, q: set<string>, r: set<string>)
    requires Local(cfg, up, id, v, q) && q <= r
    ensures Local(cfg, up, id, v, r)
  {
  }

  lemma LocalsKept(cfg: Config, w: World, n: World, j: string)
    requires Locals(cfg, w) && Touches(w, n, j)
    requires Local(cfg, n.up, j, ViewOf(n, j), Cover(n))
    ensures Locals(cfg, n)
  {
    forall id | id in n.disk.jobs ensures Local(cfg, n.up, id, ViewOf(n, id), Cover(n)) {
      if id != j {
        assert ViewOf(n, id) == ViewOf(w, id);
        LocalWiden(cfg, w.up, id, ViewOf(w, id), Cover(w), Cover(n));
      }
    }
  }

  /** Attempts of other jobs are as before. */
  lemma OtherAttempts(w: World, n: World, j: string)
    requires Touches(w, n, j) && Owned(w) && Owned(n)
    ensures forall id :: id != j ==> (id in n.disk.attempts <==> id in w.disk.attempts)
    ensures forall id :: id != j && id in w.disk.attempts ==> n.disk.attempts[id] == w.disk.attempts[id]
    ensures forall id :: id != j ==> (id in n.mem.tasks <==> id in w.mem.tasks) && (id in n.remote <==> id in w.remote)
  {
    forall id | id != j
      ensures id in n.disk.attempts <==> id in w.disk.attempts
      ensures id in w.disk.attempts ==> n.disk.attempts[id] == w.disk.attempts[id]
      ensures (id in n.mem.tasks <==> id in w.mem.tasks) && (id in n.remote <==> id in w.remote)
    {
      if id in w.disk.jobs { assert ViewOf(n, id) == ViewOf(w, id); }
    }
  }

  /** A job that does not newly occupy a slot leaves every pool no fuller. */
  lemma SeatsKept(cfg: Config, w: World, n: World, j: string)
    requires Seats(cfg, w) && Touches(w, n, j) && Owned(w) && Owned(n)
    requires j in n.disk.attempts && (j in n.mem.tasks || j in n.remote) ==>
               j in w.disk.attempts && w.disk.attempts[j].pool == n.disk.attempts[j].pool
                   && (j in w.mem.tasks || j in w.remote)
    ensures Seats(cfg, n)
  {
    OtherAttempts(w, n, j);
    forall p | p in cfg.slots && p !in n.exposed ensures |BusyOn(n, p)| <= cfg.slots[p] {
      assert BusyOn(n, p) <= BusyOn(w, p);
      Smaller(BusyOn(n, p), BusyOn(w, p));
    }
  }

  lemma {:induction false} Smaller(a: set<string>, b: set<string>)
    requires a <= b
    ensures |a| <= |b|
  {
    if a != {} {
      var x :| x in a;
      Smaller(a - {x}, b - {x});
    }
  }

  /** Charges move only at j, and there not upward. */
  lemma SolventAfter(w: World, n: World, j: string)
    requires Solvent(w.disk) && Touches(w, n, j) && Owned(w) && Owned(n)
    requires n.disk.maxAttempts == w.disk.maxAttempts && n.disk.maxMicrousd == w.disk.maxMicrousd
    requires j in n.disk.attempts <==> j in w.disk.attempts
    requires j in w.disk.attempts ==> Charge(n.disk, j) <= Charge(w.disk, j)
    ensures Solvent(n.disk)
  {
    hide Solvent;
    OtherAttempts(w, n, j);
    forall id | id in w.disk.attempts ensures Charge(n.disk, id) <= Charge(w.disk, id) {
      if id != j { OtherCharge(w, n, j, id); }
    }
    SolventKept(w.disk, n.disk);
  }

  lemma OtherCharge(w: World, n: World, j: string, id: string)
    requires Touches(w, n, j) && id in w.disk.attempts && id in n.disk.attempts && id != j && Owned(w)
    requires n.disk.attempts[id] == w.disk.attempts[id]
    ensures Charge(n.disk, id) == Charge(w.disk, id)
  {
    assert n.disk.jobs[id] == w.disk.jobs[id];
  }

  lemma QueueKept(cfg: Config, w: World, n: World, j: string)
    requires Touches(w, n, j) && SlotOrder(w.disk) && |QueuedSet(w.disk)| <= cfg.maxQueue
    ensures SlotOrder(n.disk) && |QueuedSet(n.disk)| <= cfg.maxQueue
  {
    forall id | InState(n.disk, id, Queued)
      ensures InState(w.disk, id, Queued) && n.disk.jobs[id].job == w.disk.jobs[id].job
          && n.disk.jobs[id].rowid == w.disk.jobs[id].rowid
    {
    }
    Smaller(QueuedSet(n.disk), QueuedSet(w.disk));
  }

  lemma CacheKept(cfg: Config, w: World, n: World, j: string)
    requires Touches(w, n, j) && CacheOk(cfg, w) && n.mem.cache == w.mem.cache
    requires forall x :: x in w.served ==> x in n.served && n.served[x] == w.served[x]
    ensures CacheOk(cfg, n)
  {
    forall item | item in n.mem.cache ensures exists x :: Source(cfg, n, item, x) {
      var x :| Source(cfg, w, item, x);
      assert Source(cfg, n, item, x);
    }
  }

  /** What a one-job step has to show. */
  ghost predicate Sound(cfg: Config, w: World, n: World, j: string) {
    && Touches(w, n, j) && Owned(n)
    && Local(cfg, n.up, j, ViewOf(n, j), Cover(n))
    && (j in n.disk.attempts || n.disk.jobs[j].receipt.prediction.Some? ==> Fed(w.disk, j))
    && Solvent(n.disk) && Seats(cfg, n)
    && (n.up ==> UseOk(cfg, n.mem) && CacheOk(cfg, n))
  }

  lemma OneJob(cfg: Config, w: World, n: World, j: string)
    requires Inv(cfg, w) && Sound(cfg, w, n, j)
    ensures Inv(cfg, n)
  {
    TablesKept(w, n, j);
    GraphKept(w, n, j);
    ProgressKept(w, n, j);
    LocalsKept(cfg, w, n, j);
    if n.up { QueueKept(cfg, w, n, j); }
  }
}
