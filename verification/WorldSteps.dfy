/** Sessions, the clock, the operator, crash and recovery keep the invariant. */
module WorldSteps {
  import opened Basics
  import opened Contracts
  import opened Ledger
  import opened Coordinator
  import opened Invariant
  import opened Steps

  /** Worlds that agree on jobs, attempts and everything a view shows. */
  ghost predicate SameJobs(w: World, n: World) {
    && n.up == w.up && n.disk.jobs == w.disk.jobs && n.disk.order == w.disk.order && n.disk.attempts == w.disk.attempts
    && n.mem.tasks == w.mem.tasks && n.remote == w.remote && n.calls == w.calls && n.served == w.served
    && w.disk.quarantined == n.disk.quarantined && n.exposed == w.exposed
  }

  lemma SameJobsKeep(cfg: Config, w: World, n: World)
    requires SameJobs(w, n) && OrderOk(w.disk) && Graph(w.disk) && Progress(w.disk)
    ensures OrderOk(n.disk) && Graph(n.disk) && Progress(n.disk)
  {
    forall id, dep | id in n.disk.jobs && dep in n.disk.jobs[id].job.dependencies ensures EdgeOk(n.disk, id, dep) {
      assert EdgeOk(w.disk, id, dep);
    }
    forall id | id in n.disk.jobs && (id in n.disk.attempts || n.disk.jobs[id].receipt.prediction.Some?)
      ensures Fed(n.disk, id) {
      assert Fed(w.disk, id);
    }
  }

  lemma SameJobsLocal(cfg: Config, w: World, n: World)
    requires SameJobs(w, n) && Locals(cfg, w) && Seats(cfg, w)
    ensures Locals(cfg, n) && Seats(cfg, n)
  {
    forall id | id in n.disk.jobs ensures Local(cfg, n.up, id, ViewOf(n, id), Cover(n)) {
      assert ViewOf(n, id) == ViewOf(w, id);
      LocalOf(cfg, w, id);
    }
    forall p | p in cfg.slots && p !in n.exposed ensures |BusyOn(n, p)| <= cfg.slots[p] { assert BusyOn(n, p) == BusyOn(w, p); }
  }

  lemma SameJobsCharge(w: World, n: World)
    requires SameJobs(w, n) && Solvent(w.disk)
    requires w.disk.maxAttempts <= n.disk.maxAttempts && w.disk.maxMicrousd <= n.disk.maxMicrousd
    ensures Solvent(n.disk)
  {
    forall j | j in w.disk.attempts ensures Charge(n.disk, j) == Charge(w.disk, j) { }
    SolventKept(w.disk, n.disk);
  }

  lemma SameJobsQueue(cfg: Config, w: World, n: World)
    requires SameJobs(w, n) && n.mem.cache == w.mem.cache
    requires CacheOk(cfg, w) && SlotOrder(w.disk) && |QueuedSet(w.disk)| <= cfg.maxQueue
    ensures CacheOk(cfg, n) && SlotOrder(n.disk) && |QueuedSet(n.disk)| <= cfg.maxQueue
  {
    assert QueuedSet(n.disk) == QueuedSet(w.disk);
    forall item | item in n.mem.cache ensures exists x :: Source(cfg, n, item, x) {
      var x :| Source(cfg, w, item, x);
      assert Source(cfg, n, item, x);
    }
    forall id ensures InState(n.disk, id, Queued) <==> InState(w.disk, id, Queued) { }
  }

  /** Steps that leave every job alone and may change sessions, caps or the clock. */
  lemma QuietKeeps(cfg: Config, w: World, n: World)
    requires Inv(cfg, w) && SameJobs(w, n)
    requires SessionsOk(n.disk) && (!n.up ==> n.mem == NO_MEM)
    requires n.mem.cache == w.mem.cache && n.mem.poolUse == w.mem.poolUse && n.mem.endpointUse == w.mem.endpointUse
    requires w.disk.maxAttempts <= n.disk.maxAttempts && w.disk.maxMicrousd <= n.disk.maxMicrousd
    ensures Inv(cfg, n)
  {
    hide Solvent, CacheOk, SlotOrder, Locals, Seats, OrderOk, Graph, Progress, SessionsOk;
    SameJobsKeep(cfg, w, n);
    SameJobsLocal(cfg, w, n);
    SameJobsCharge(w, n);
    if n.up { SameJobsQueue(cfg, w, n); }
  }

  // ---- sessions ----

  lemma PutSessionOk(d: Disk, s: Session)
    requires SessionsOk(d) && (s.id in d.sessions ==> d.sessions[s.id].epoch <= s.epoch)
    ensures SessionsOk(PutSession(d, s))
  {
  }

  lemma PutSessionKeeps(cfg: Config, w: World, s: Session)
    requires Inv(cfg, w) && (s.id in w.disk.sessions ==> w.disk.sessions[s.id].epoch <= s.epoch)
    ensures Inv(cfg, w.(disk := PutSession(w.disk, s)))
  {
    hide Solvent, CacheOk, SlotOrder, Locals, Seats, OrderOk, Graph, Progress, SessionsOk, UseOk;
    PutSessionOk(w.disk, s);
    QuietKeeps(cfg, w, w.(disk := PutSession(w.disk, s)));
  }

  lemma OpenKeeps(cfg: Config, w: World, sid: string, task: string)
    requires Inv(cfg, w)
    ensures Inv(cfg, OpenSession(cfg, w, sid, task).world)
  {
    hide Inv;
    if OpenSession(cfg, w, sid, task).result.Ok? { PutSessionKeeps(cfg, w, OpenSession(cfg, w, sid, task).result.value); }
  }

  lemma AdvanceKeeps(cfg: Config, w: World, sid: string, expected: nat, task: string, close: bool)
    requires Inv(cfg, w)
    ensures Inv(cfg, AdvanceSession(w, sid, expected, task, close).world)
  {
    hide Inv;
    var o := AdvanceSession(w, sid, expected, task, close);
    if o.result.Ok? { PutSessionKeeps(cfg, w, o.result.value); }
  }

  lemma SessionIds(cfg: Config, w: World)
    requires Inv(cfg, w)
    ensures forall sid :: sid in w.disk.sessions ==> w.disk.sessions[sid].id == sid
  {
  }

  lemma HeartbeatKeeps(cfg: Config, w: World, sid: string, expected: nat, buffer: Option<nat>)
    requires Inv(cfg, w)
    ensures Inv(cfg, Heartbeat(w, sid, expected, buffer).world)
  {
    hide Inv;
    SessionIds(cfg, w);
    var o := Heartbeat(w, sid, expected, buffer);
    if o.result.Ok? {
      PutSessionKeeps(cfg, w, o.result.value);
      assert o.world == w.(disk := PutSession(w.disk, o.result.value));
    }
  }

  // ---- clock, closing, caps ----

  lemma ClockKeeps(cfg: Config, w: World, now: nat, closed: bool)
    requires Inv(cfg, w) && w.up
    ensures Inv(cfg, w.(mem := w.mem.(now := now, closed := closed)))
  {
    hide Solvent, CacheOk, SlotOrder, Locals, Seats, OrderOk, Graph, Progress, SessionsOk, UseOk;
    var n := w.(mem := w.mem.(now := now, closed := closed));
    assert SessionsOk(n.disk);
    QuietKeeps(cfg, w, n);
  }

  lemma ExtendKeeps(cfg: Config, w: World, maxAttempts: nat, maxMicrousd: nat, approval: string)
    requires Inv(cfg, w) && Extend(w.disk, maxAttempts, maxMicrousd, approval).Ok?
    ensures Inv(cfg, w.(disk := Extend(w.disk, maxAttempts, maxMicrousd, approval).value))
  {
    hide Solvent, CacheOk, SlotOrder, Locals, Seats, OrderOk, Graph, Progress, UseOk;
    QuietKeeps(cfg, w, w.(disk := Extend(w.disk, maxAttempts, maxMicrousd, approval).value));
  }

  // ---- steps that touch many jobs, but neither receipts nor sessions ----

  /** Same tables but for attempts' settlement, quarantines, tasks and remote calls. */
  ghost predicate SameTables(w: World, n: World) {
    && n.disk.jobs == w.disk.jobs && n.disk.order == w.disk.order && n.disk.sessions == w.disk.sessions
    && n.disk.attempts.Keys == w.disk.attempts.Keys && n.calls == w.calls && n.served == w.served
  }

  lemma SameTablesKeep(w: World, n: World)
    requires SameTables(w, n) && OrderOk(w.disk) && SessionsOk(w.disk) && Graph(w.disk) && Progress(w.disk)
    ensures OrderOk(n.disk) && SessionsOk(n.disk) && Graph(n.disk) && Progress(n.disk)
  {
    forall id, dep | id in n.disk.jobs && dep in n.disk.jobs[id].job.dependencies ensures EdgeOk(n.disk, id, dep) {
      assert EdgeOk(w.disk, id, dep);
    }
    forall id | id in n.disk.jobs && (id in n.disk.attempts || n.disk.jobs[id].receipt.prediction.Some?)
      ensures Fed(n.disk, id) {
      assert Fed(w.disk, id);
    }
  }

  lemma SeatsShrink(cfg: Config, w: World, n: World)
    requires Seats(cfg, w) && w.exposed <= n.exposed
    requires forall j :: j in n.disk.attempts ==> j in w.disk.attempts && w.disk.attempts[j].pool == n.disk.attempts[j].pool
    requires forall j :: j in n.mem.tasks || j in n.remote ==> j in w.mem.tasks || j in w.remote
    ensures Seats(cfg, n)
  {
    forall p | p in cfg.slots && p !in n.exposed ensures |BusyOn(n, p)| <= cfg.slots[p] {
      assert BusyOn(n, p) <= BusyOn(w, p);
      Smaller(BusyOn(n, p), BusyOn(w, p));
    }
  }

  // ---- crash ----

  lemma CrashLocal(cfg: Config, up: bool, id: string, v: View, q: set<string>)
    requires Local(cfg, up, id, v, q)
    ensures Local(cfg, false, id, v.(task := None), q)
  {
  }

  lemma CrashLocals(cfg: Config, w: World)
    requires Locals(cfg, w)
    ensures Locals(cfg, Crash(w))
  {
    hide Local;
    forall id | id in w.disk.jobs ensures Local(cfg, false, id, ViewOf(Crash(w), id), Cover(w)) {
      LocalOf(cfg, w, id);
      CrashLocal(cfg, w.up, id, ViewOf(w, id), Cover(w));
      assert ViewOf(Crash(w), id) == ViewOf(w, id).(task := None);
    }
  }

  lemma CrashKeeps(cfg: Config, w: World)
    requires Inv(cfg, w)
    ensures Inv(cfg, Crash(w))
  {
    hide Solvent, CacheOk, SlotOrder, Locals, Seats, OrderOk, Graph, Progress, SessionsOk, UseOk;
    CrashLocals(cfg, w);
    SameTablesKeep(w, Crash(w));
    SeatsShrink(cfg, w, Crash(w));
  }

  // ---- operator release ----

  lemma ReleaseLocal(cfg: Config, up: bool, id: string, v: View, q: set<string>, pool: string)
    requires Local(cfg, up, id, v, q)
    ensures Local(cfg, up, id, v.(remote := if v.task.Some? || v.remote != Some(pool) then v.remote else None), q - {pool})
  {
  }

  lemma ReleaseLocals(cfg: Config, w: World, pool: string)
    requires Locals(cfg, w)
    ensures Locals(cfg, Release(w, pool))
  {
    hide Local;
    var n := Release(w, pool);
    assert Cover(n) == Cover(w) - {pool};
    forall id | id in w.disk.jobs ensures Local(cfg, n.up, id, ViewOf(n, id), Cover(n)) {
      LocalOf(cfg, w, id);
      var v := ViewOf(w, id);
      ReleaseLocal(cfg, w.up, id, v, Cover(w), pool);
      assert ViewOf(n, id) == v.(remote := if v.task.Some? || v.remote != Some(pool) then v.remote else None);
    }
  }

  lemma ReleaseSolvent(w: World, pool: string)
    requires Solvent(w.disk)
    ensures Solvent(Release(w, pool).disk)
  {
    var n := Release(w, pool);
    forall j | j in w.disk.attempts ensures Charge(n.disk, j) == Charge(w.disk, j) { }
    SolventKept(w.disk, n.disk);
  }

  lemma ReleaseQueue(cfg: Config, w: World, pool: string)
    requires CacheOk(cfg, w) && SlotOrder(w.disk) && |QueuedSet(w.disk)| <= cfg.maxQueue
    ensures CacheOk(cfg, Release(w, pool)) && SlotOrder(Release(w, pool).disk)
    ensures |QueuedSet(Release(w, pool).disk)| <= cfg.maxQueue
  {
    var n := Release(w, pool);
    assert QueuedSet(n.disk) == QueuedSet(w.disk);
    forall item | item in n.mem.cache ensures exists x :: Source(cfg, n, item, x) {
      var x :| Source(cfg, w, item, x);
      assert Source(cfg, n, item, x);
    }
    forall id ensures InState(n.disk, id, Queued) <==> InState(w.disk, id, Queued) { }
  }

  /** On the released pool only tasks are left. */
  lemma ReleasedIsTasks(cfg: Config, w: World, pool: string)
    requires Locals(cfg, w) && Owned(w)
    ensures BusyOn(Release(w, pool), pool) <= TasksOn(w.mem.tasks, pool)
  {
    forall j | j in BusyOn(Release(w, pool), pool) ensures j in TasksOn(w.mem.tasks, pool) {
      LocalOf(cfg, w, j);
    }
  }

  lemma ReleaseSeats(cfg: Config, w: World, pool: string)
    requires Locals(cfg, w) && Owned(w) && Seats(cfg, w) && (w.up ==> UseOk(cfg, w.mem))
    ensures Seats(cfg, Release(w, pool))
  {
    hide Locals, Owned, UseOk, BusyOn;
    var n := Release(w, pool);
    ReleasedIsTasks(cfg, w, pool);
    forall p | p in cfg.slots && p !in n.exposed ensures |BusyOn(n, p)| <= cfg.slots[p] {
      if p == pool {
        Smaller(BusyOn(n, p), TasksOn(w.mem.tasks, p));
        TasksFit(cfg, w, p);
      } else {
        OtherPoolsBusy(w, pool, p);
        Smaller(BusyOn(n, p), BusyOn(w, p));
      }
    }
  }

  lemma OtherPoolsBusy(w: World, pool: string, p: string)
    ensures BusyOn(Release(w, pool), p) <= BusyOn(w, p)
  {
  }

  lemma TasksFit(cfg: Config, w: World, pool: string)
    requires Owned(w) && (w.up ==> UseOk(cfg, w.mem)) && pool in cfg.slots
    ensures |TasksOn(w.mem.tasks, pool)| <= cfg.slots[pool]
  {
    if !w.up { assert TasksOn(w.mem.tasks, pool) == {}; }
  }

  lemma ReleaseKeeps(cfg: Config, w: World, pool: string)
    requires Inv(cfg, w)
    ensures Inv(cfg, Release(w, pool))
  {
    hide Solvent, CacheOk, SlotOrder, Locals, Seats, OrderOk, Graph, Progress, SessionsOk, UseOk;
    ReleaseLocals(cfg, w, pool);
    SameTablesKeep(w, Release(w, pool));
    ReleaseSeats(cfg, w, pool);
    ReleaseSolvent(w, pool);
    if w.up { ReleaseQueue(cfg, w, pool); }
  }

  // ---- reconciliation ----

  function Settling(w: World, id: string, cost: Option<nat>): World { w.(disk := Settle(w.disk, id, cost)) }

  /** The attempt awaits its charge, is not in flight, and any call it may still have is on a covered pool. */
  ghost predicate MaySettle(w: World, id: string) {
    && id in w.disk.attempts && id in w.disk.jobs && w.disk.attempts[id].actual.None?
    && id !in w.mem.tasks && (id in w.remote ==> w.remote[id] in Cover(w))
  }

  lemma SettleTouches(w: World, id: string, cost: Option<nat>)
    requires id in w.disk.attempts && id in w.disk.jobs
    ensures Touches(w, Settling(w, id, cost), id)
    ensures ViewOf(Settling(w, id, cost), id) == ViewOf(w, id).(attempt := Some(SettleAttempt(w.disk.attempts[id], cost)))
  {
  }

  lemma SettleLocal(cfg: Config, up: bool, id: string, v: View, q: set<string>, cost: Option<nat>)
    requires Local(cfg, up, id, v, q) && v.attempt.Some? && v.task.None? && (v.remote.Some? ==> v.remote.value in q)
    ensures Local(cfg, up, id, v.(attempt := Some(SettleAttempt(v.attempt.value, cost))), q)
  {
  }

  lemma SettleSolvent(w: World, id: string, cost: Option<nat>)
    requires Owned(w) && Solvent(w.disk) && MaySettle(w, id)
    ensures Solvent(Settle(w.disk, id, cost))
  {
    hide Solvent, Touches;
    SettleTouches(w, id, cost);
    SolventAfter(w, Settling(w, id, cost), id);
  }

  lemma SettleRest(cfg: Config, w: World, id: string, cost: Option<nat>)
    requires Owned(w) && Seats(cfg, w) && id in w.disk.attempts && id in w.disk.jobs
    requires w.up ==> CacheOk(cfg, w)
    ensures Owned(Settling(w, id, cost)) && Seats(cfg, Settling(w, id, cost))
    ensures w.up ==> CacheOk(cfg, Settling(w, id, cost))
  {
    hide Touches, Seats, CacheOk;
    var n := Settling(w, id, cost);
    SettleTouches(w, id, cost);
    SeatsKept(cfg, w, n, id);
    if w.up { CacheKept(cfg, w, n, id); }
  }

  lemma AttemptFed(cfg: Config, w: World, id: string)
    requires Inv(cfg, w) && id in w.disk.attempts
    ensures id in w.disk.jobs && Fed(w.disk, id)
  {
  }

  lemma SettleKeeps(cfg: Config, w: World, id: string, cost: Option<nat>)
    requires Inv(cfg, w) && MaySettle(w, id)
    ensures Inv(cfg, Settling(w, id, cost))
  {
    hide Solvent, CacheOk, SlotOrder, Locals, Local, Seats, OrderOk, Graph, Progress, SessionsOk, UseOk, Touches, Fed;
    InvLocal(cfg, w, id);
    AttemptFed(cfg, w, id);
    SettleTouches(w, id, cost);
    SettleLocal(cfg, w.up, id, ViewOf(w, id), Cover(w), cost);
    SettleSolvent(w, id, cost);
    SettleRest(cfg, w, id, cost);
    OneJob(cfg, w, Settling(w, id, cost), id);
  }

  lemma {:induction false} ReconcileLeaves(d: Disk, entries: seq<Entry>, id: string)
    requires forall i :: 0 <= i < |entries| ==> 0 <= entries[i].actual && entries[i].id != id
    requires id in d.attempts
    ensures id in Reconcile(d, entries).attempts && Reconcile(d, entries).attempts[id] == d.attempts[id]
  {
    if entries != [] { ReconcileLeaves(d, entries[..|entries| - 1], id); }
  }

  /** Every attempt named was given up on, or is on a covered pool. */
  ghost predicate MayImport(w: World, entries: seq<Entry>) {
    && !w.up && Reconcilable(w.disk, entries)
    && forall i :: 0 <= i < |entries| ==>
         w.disk.attempts[entries[i].id].disposition == Unresolved || w.disk.attempts[entries[i].id].pool in Cover(w)
  }

  lemma NamedMaySettle(cfg: Config, w: World, id: string)
    requires Inv(cfg, w) && !w.up && id in w.disk.attempts && w.disk.attempts[id].actual.None?
    requires w.disk.attempts[id].disposition == Unresolved || w.disk.attempts[id].pool in Cover(w)
    ensures MaySettle(w, id)
  {
    hide Inv, Local, Cover;
    AttemptFed(cfg, w, id);
    InvLocal(cfg, w, id);
    NamedFacts(cfg, id, ViewOf(w, id), Cover(w));
  }

  lemma NamedFacts(cfg: Config, id: string, v: View, q: set<string>)
    requires Local(cfg, false, id, v, q) && v.attempt.Some?
    requires v.attempt.value.disposition == Unresolved || v.attempt.value.pool in q
    ensures v.task.None? && (v.remote.Some? ==> v.remote.value in q)
  {
  }

  lemma {:induction false} ReconcileKeeps(cfg: Config, w: World, entries: seq<Entry>)
    requires Inv(cfg, w) && MayImport(w, entries)
    ensures Inv(cfg, w.(disk := Reconcile(w.disk, entries)))
    ensures Reconcile(w.disk, entries).quarantined == w.disk.quarantined
  {
    hide Inv;
    if entries == [] {
      assert w.(disk := w.disk) == w;
    } else {
      var n := |entries| - 1;
      ReconcileKeeps(cfg, w, entries[..n]);
      ReconcileLeaves(w.disk, entries[..n], entries[n].id);
      var mid := w.(disk := Reconcile(w.disk, entries[..n]));
      NamedMaySettle(cfg, mid, entries[n].id);
      SettleKeeps(cfg, mid, entries[n].id, Some(entries[n].actual));
      assert mid.(disk := Settle(mid.disk, entries[n].id, Some(entries[n].actual))) == w.(disk := Reconcile(w.disk, entries));
    }
  }

  // ---- exposure ----

  function Exposing(w: World, pools: set<string>): World { w.(exposed := w.exposed + pools) }

  lemma ExposeLocals(cfg: Config, w: World, pools: set<string>)
    requires Locals(cfg, w)
    ensures Locals(cfg, Exposing(w, pools))
  {
    hide Local;
    var n := Exposing(w, pools);
    forall id | id in w.disk.jobs ensures Local(cfg, n.up, id, ViewOf(n, id), Cover(n)) {
      LocalOf(cfg, w, id);
      LocalWiden(cfg, w.up, id, ViewOf(w, id), Cover(w), Cover(n));
    }
  }

  lemma ExposeKeeps(cfg: Config, w: World, pools: set<string>)
    requires Inv(cfg, w)
    ensures Inv(cfg, Exposing(w, pools))
  {
    hide Solvent, SlotOrder, Locals, Seats, OrderOk, Graph, Progress, SessionsOk, UseOk;
    ExposeLocals(cfg, w, pools);
    SeatsShrink(cfg, w, Exposing(w, pools));
    if w.up { ExposeCache(cfg, w, pools); }
  }

  lemma ExposeCache(cfg: Config, w: World, pools: set<string>)
    requires CacheOk(cfg, w)
    ensures CacheOk(cfg, Exposing(w, pools))
  {
    var n := Exposing(w, pools);
    forall item | item in n.mem.cache ensures exists x :: Source(cfg, n, item, x) {
      var x :| Source(cfg, w, item, x);
      assert Source(cfg, n, item, x);
    }
  }

  /** Importing charges keeps the invariant, whatever the batch: pools it may uncover are exposed. */
  lemma ImportKeeps(cfg: Config, w: World, entries: seq<Entry>)
    requires Inv(cfg, w) && !w.up
    ensures Inv(cfg, Import(w, entries))
  {
    if Reconcilable(w.disk, entries) {
      var n := Exposing(w, StillReserved(w.disk, entries));
      ExposeKeeps(cfg, w, StillReserved(w.disk, entries));
      ImportMay(cfg, w, entries);
      hide Inv, Reconcile, StillReserved, MayImport;
      ReconcileKeeps(cfg, n, entries);
    }
  }

  lemma ImportMay(cfg: Config, w: World, entries: seq<Entry>)
    requires Inv(cfg, w) && !w.up && Reconcilable(w.disk, entries)
    ensures MayImport(Exposing(w, StillReserved(w.disk, entries)), entries)
  {
    hide Inv;
    var n := Exposing(w, StillReserved(w.disk, entries));
    forall i | 0 <= i < |entries|
      ensures w.disk.attempts[entries[i].id].disposition == Unresolved || w.disk.attempts[entries[i].id].pool in Cover(n)
    {
      Unpriced(cfg, w, entries[i].id);
    }
  }

  lemma Unpriced(cfg: Config, w: World, id: string)
    requires Inv(cfg, w) && id in w.disk.attempts && w.disk.attempts[id].actual.None?
    ensures w.disk.attempts[id].disposition != Settled
  {
    AttemptFed(cfg, w, id);
    hide Inv;
    InvLocal(cfg, w, id);
    assert ViewOf(w, id).attempt == Some(w.disk.attempts[id]);
  }
}
