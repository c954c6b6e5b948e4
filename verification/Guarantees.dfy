/** What every run of the coordinator guarantees. */
module Guarantees {
  import opened Basics
  import opened Contracts
  import opened Scheduling
  import opened Sums
  import opened Ledger
  import opened Coordinator
  import opened Invariant
  import opened Steps
  import opened SubmitSteps
  import opened WorldSteps
  import opened RecoverSteps
  import opened Growth
  import opened Runs
  import Cache

  // ---- slots ----

  /** Calls that may still be executing on a pool. */
  ghost function Executing(w: World, pool: string): set<string> { set j | j in w.remote && w.remote[j] == pool }

  lemma CallIsBusy(cfg: Config, w: World, j: string, pool: string)
    requires Locals(cfg, w) && Owned(w) && j in Executing(w, pool)
    ensures j in BusyOn(w, pool)
  {
    LocalOf(cfg, w, j);
  }

  lemma HeldView(cfg: Config, up: bool, id: string, v: View, q: set<string>)
    requires Local(cfg, up, id, v, q) && v.remote.Some? && v.task.None?
    ensures v.remote.value in q || (!up && v.attempt.Some? && v.attempt.value.disposition == Reserved
        && v.attempt.value.pool == v.remote.value)
  {
  }

  lemma CallIsOwned(cfg: Config, w: World, j: string)
    requires Inv(cfg, w) && j in w.remote
    ensures j in w.disk.jobs
  {
  }

  /** A call without a task is on a covered pool, or recovery will quarantine its pool before any dispatch. */
  lemma CallIsHeld(cfg: Config, w: World, j: string)
    requires Inv(cfg, w) && j in w.remote && j !in w.mem.tasks
    ensures w.remote[j] in Cover(w) || (!w.up && w.remote[j] in Recover(w.disk).quarantined)
  {
    hide Inv, Local;
    assert j in w.disk.jobs by { CallIsOwned(cfg, w, j); }
    InvLocal(cfg, w, j);
    HeldView(cfg, w.up, j, ViewOf(w, j), Cover(w));
  }

  /** In every run, on a pool that is not exposed: the calls possibly executing never exceed its slots,
      and an unconfirmed call keeps the pool quarantined until it is released. */
  lemma SlotsAreSafe(cfg: Config, w: World, pool: string)
    requires cfg.Valid() && Reachable(cfg, w) && pool in cfg.slots && pool !in w.exposed
    ensures |Executing(w, pool)| <= cfg.slots[pool]
    ensures forall j :: j in Executing(w, pool) && j !in w.mem.tasks ==>
              pool in (if w.up then w.disk else Recover(w.disk)).quarantined
  {
    ReachableInv(cfg, w);
    forall j | j in Executing(w, pool) ensures j in BusyOn(w, pool) { CallIsBusy(cfg, w, j, pool); }
    Smaller(Executing(w, pool), BusyOn(w, pool));
    hide Inv;
    forall j | j in Executing(w, pool) && j !in w.mem.tasks
      ensures pool in (if w.up then w.disk else Recover(w.disk)).quarantined
    {
      CallIsHeld(cfg, w, j);
    }
  }

  /** On every run and every pool the counter is what is in flight, and that fits the slots. */
  lemma CountersAreExact(cfg: Config, w: World, pool: string)
    requires cfg.Valid() && Reachable(cfg, w) && w.up
    ensures Used(w.mem.poolUse, pool) == |TasksOn(w.mem.tasks, pool)|
    ensures pool in cfg.slots ==> |TasksOn(w.mem.tasks, pool)| <= cfg.slots[pool]
  {
    hide Solvent, CacheOk, SlotOrder, Locals, OrderOk, Graph, Progress, SessionsOk, Reachable;
    ReachableInv(cfg, w);
  }

  // ---- exposure ----

  /** The two things that may hide a call on this pool from recovery: a crash between the failure
      handler's first and last write, and the import of a charge for an attempt still reserved; in
      both cases on a pool not quarantined then. */
  predicate Exposes(w: World, s: Step, pool: string) {
    || (s.FinishCrash? && w.up && s.id in w.mem.tasks && w.mem.tasks[s.id].sent && s.id in w.disk.jobs && 1 <= s.writes <= 2
        && IsUnconfirmed(Checked(w.disk.jobs[s.id].receipt, s.outcome, w.mem.now))
        && w.mem.tasks[s.id].endpoint.pool == pool && pool !in w.disk.quarantined)
    || (s.ReconcileStep? && !w.up && Reconcilable(w.disk, s.entries) && pool in StillReserved(w.disk, s.entries))
  }

  predicate IsUnconfirmed(o: Outcome) { o.Raised? && o.ending == Unconfirmed }

  lemma LiveExposes(cfg: Config, w: World, s: Step)
    requires cfg.Valid() && Live(s) && !Fatal(s)
    ensures ApplyLive(cfg, w, s).exposed == w.exposed
  {
    hide Job.InvalidReason, Place, CanReserve, Cache.Get, Judge, Supersede, Refusal, Finish;
    if s.FinishStep? { FinishExposes(cfg, w, s.id, s.outcome); }
  }

  lemma FinishExposes(cfg: Config, w: World, id: string, outcome: Outcome)
    ensures Finish(cfg, w, id, outcome).exposed == w.exposed
  {
    hide Job.InvalidReason;
  }

  lemma FatalExposes(cfg: Config, w: World, s: Step, pool: string)
    requires cfg.Valid() && w.up && Fatal(s)
    ensures pool in ApplyFatal(cfg, w, s).exposed <==> Exposes(w, s, pool) || pool in w.exposed
  {
    hide Job.InvalidReason, Place, CanReserve, Judge, Supersede, Refusal, Finish, HandlerCut, Checked;
    if s.FinishCrash? { FinishExposes(cfg, w, s.id, s.outcome); }
  }

  /** A pool becomes exposed by those steps only, and stays so until the operator releases it. */
  lemma ExposureIs(cfg: Config, w: World, s: Step, pool: string)
    requires cfg.Valid()
    ensures pool in Apply(cfg, w, s).exposed <==> Exposes(w, s, pool) || (pool in w.exposed && s != ReleaseStep(pool))
  {
    hide ApplyLive, ApplyFatal, RecoverJob, RecoverReserved, CloseOne, Recover, Reconcile;
    if Live(s) {
      if w.up {
        if Fatal(s) { FatalExposes(cfg, w, s, pool); } else { LiveExposes(cfg, w, s); }
      }
    }
  }

  /** No step of the run exposes the pool. */
  ghost predicate Careful(cfg: Config, w: World, steps: seq<Step>, pool: string)
    requires cfg.Valid()
    decreases |steps|
  {
    steps == [] || (!Exposes(w, steps[0], pool) && Careful(cfg, Apply(cfg, w, steps[0]), steps[1..], pool))
  }

  lemma {:induction false} CarefulStaysCovered(cfg: Config, w: World, steps: seq<Step>, pool: string)
    requires cfg.Valid() && Careful(cfg, w, steps, pool) && pool !in w.exposed
    ensures pool !in Exec(cfg, w, steps).exposed
    decreases |steps|
  {
    hide Apply, Exposes;
    if steps != [] {
      ExposureIs(cfg, w, steps[0], pool);
      CarefulStaysCovered(cfg, Apply(cfg, w, steps[0]), steps[1..], pool);
    }
  }

  /** So on a run of a fresh database without those steps the bound on executing calls holds outright. */
  lemma CarefulRunsAreSafe(cfg: Config, attempts: nat, money: nat, steps: seq<Step>, pool: string)
    requires cfg.Valid() && pool in cfg.slots && Careful(cfg, Start(attempts, money), steps, pool)
    ensures |Executing(Exec(cfg, Start(attempts, money), steps), pool)| <= cfg.slots[pool]
  {
    hide Careful, Exec;
    var w := Exec(cfg, Start(attempts, money), steps);
    CarefulStaysCovered(cfg, Start(attempts, money), steps, pool);
    assert Reachable(cfg, w);
    SlotsAreSafe(cfg, w, pool);
  }

  // ---- one call per job ----

  /** No job is ever sent to a backend twice, whatever is resubmitted or restarted; and when the
      scheduler reaches a queued job no attempt row of that job stands in the way. */
  lemma OneCallPerJob(cfg: Config, w: World, id: string)
    requires cfg.Valid() && Reachable(cfg, w)
    ensures Used(w.calls, id) <= 1
    ensures w.up && InState(w.disk, id, Queued) ==> id !in w.disk.attempts && Used(w.calls, id) == 0
  {
    ReachableInv(cfg, w);
    if id in w.disk.jobs { LocalOf(cfg, w, id); }
  }

  /** No job returns to the queue, no dead job revives, and a result once stored never changes. */
  lemma JobsMoveForward(cfg: Config, w: World, steps: seq<Step>, id: string)
    requires cfg.Valid() && Reachable(cfg, w) && id in w.disk.jobs
    ensures var n := Exec(cfg, w, steps);
            && id in n.disk.jobs && n.disk.jobs[id].job == w.disk.jobs[id].job
            && (StateOf(w.disk, id) != Queued ==> StateOf(n.disk, id) != Queued)
            && (Dead(StateOf(w.disk, id)) ==> Dead(StateOf(n.disk, id)))
            && (w.disk.jobs[id].receipt.prediction.Some? ==>
                  n.disk.jobs[id].receipt.prediction == w.disk.jobs[id].receipt.prediction)
  {
    hide Inv, Exec, Reachable, AttemptsGrow, HistoryGrows, HitsGrow;
    ReachableInv(cfg, w);
    RunKeeps(cfg, w, steps);
    assert RowGrows(w.disk.jobs[id], Exec(cfg, w, steps).disk.jobs[id]);
  }

  // ---- money ----

  /** Attempts stay within their cap, and known plus held spend within the money cap plus what settled
      charges ran over their quotes. */
  lemma SpendIsBounded(cfg: Config, w: World)
    requires cfg.Valid() && Reachable(cfg, w)
    ensures |w.disk.attempts| <= w.disk.maxAttempts
    ensures Known(w.disk) + Held(w.disk) <= w.disk.maxMicrousd + Sum(Overruns(w.disk))
  {
    ReachableInv(cfg, w);
    hide Solvent;
    SpendBounded(w.disk);
  }

  // ---- staleness ----

  /** The session has left the job's epoch for good. */
  predicate Gone(d: Disk, id: string)
    requires Has(d, id)
  {
    var s := SessionOf(d, id);
    d.jobs[id].job.epoch < s.epoch || (d.jobs[id].job.epoch == s.epoch && !s.active)
  }

  /** Nothing can be delivered for the job any more. */
  predicate Lost(d: Disk, id: string) { Has(d, id) && (Gone(d, id) || Dead(StateOf(d, id))) }

  lemma LostStays(cfg: Config, w: World, n: World, id: string)
    requires Grows(cfg, w, n) && Lost(w.disk, id)
    ensures Lost(n.disk, id)
  {
    hide AttemptsGrow, HistoryGrows, HitsGrow;
    assert RowGrows(w.disk.jobs[id], n.disk.jobs[id]);
    assert SessionGrows(SessionOf(w.disk, id), n.disk.sessions[w.disk.jobs[id].job.sessionId]);
  }

  lemma LostIsRefused(w: World, id: string, who: string)
    requires Lost(w.disk, id)
    ensures Consume(w, id, who) == Out(w, Err(Permission))
  {
  }

  /** Once a job is lost, no consumer ever obtains it again, whatever happens next. */
  lemma LostForever(cfg: Config, w: World, steps: seq<Step>, id: string, who: string)
    requires cfg.Valid() && Reachable(cfg, w) && Lost(w.disk, id)
    ensures Lost(Exec(cfg, w, steps).disk, id)
    ensures Consume(Exec(cfg, w, steps), id, who).result == Err(Permission)
  {
    hide Inv, Grows, Exec, Reachable;
    ReachableInv(cfg, w);
    RunKeeps(cfg, w, steps);
    LostStays(cfg, w, Exec(cfg, w, steps), id);
    LostIsRefused(Exec(cfg, w, steps), id, who);
  }

  /** A restart loses every job on record. */
  lemma RestartLoses(cfg: Config, w: World, clockId: string, now: nat, id: string)
    requires cfg.Valid() && Reachable(cfg, w) && !w.up && id in w.disk.jobs
    ensures Lost(Apply(cfg, w, RestartStep(clockId, now)).disk, id)
  {
    hide Inv, Reachable, SessionsOk;
    ReachableInv(cfg, w);
    assert SessionsOk(w.disk) by { SessionsOfInv(cfg, w); }
    RecoveryLoses(w.disk, id);
  }

  lemma SessionsOfInv(cfg: Config, w: World)
    requires Inv(cfg, w)
    ensures SessionsOk(w.disk)
  {
  }

  lemma RecoveryLoses(d: Disk, id: string)
    requires SessionsOk(d) && id in d.jobs
    ensures Lost(Recover(d), id)
  {
    var e := Recover(d);
    assert e.jobs[id].job == d.jobs[id].job && e.jobs[id].receipt == RecoverReceipt(d.jobs[id].receipt);
    assert !SessionOf(e, id).active && SessionOf(e, id).epoch == SessionOf(d, id).epoch;
  }

  /** So does advancing the session, for the jobs of its earlier epochs. */
  lemma AdvanceLoses(cfg: Config, w: World, sid: string, expected: nat, task: string, close: bool, id: string)
    requires cfg.Valid() && Reachable(cfg, w) && id in w.disk.jobs && w.disk.jobs[id].job.sessionId == sid
    requires AdvanceSession(w, sid, expected, task, close).result.Ok?
    ensures Lost(AdvanceSession(w, sid, expected, task, close).world.disk, id)
  {
    hide Inv, Reachable, SessionsOk;
    ReachableInv(cfg, w);
    SessionsOfInv(cfg, w);
    var n := AdvanceSession(w, sid, expected, task, close).world;
    assert n.disk.jobs == w.disk.jobs && w.disk.sessions[sid].id == sid by { SessionIds(cfg, w); }
    assert Alive(StateOf(w.disk, id)) ==> w.disk.jobs[id].job.epoch <= w.disk.sessions[sid].epoch by {
      AliveEpoch(w.disk, id);
    }
  }

  lemma AliveEpoch(d: Disk, id: string)
    requires SessionsOk(d) && id in d.jobs
    ensures d.jobs[id].job.sessionId in d.sessions
    ensures Alive(StateOf(d, id)) ==> d.jobs[id].job.epoch <= d.sessions[d.jobs[id].job.sessionId].epoch
  {
  }

  /** A session is advanced exactly by one who names its present epoch, under the clock it was opened with
      and while it is open; the new session starts one epoch on, without a buffer. */
  lemma AdvanceAnswers(w: World, sid: string, expected: nat, task: string, close: bool)
    ensures var out := AdvanceSession(w, sid, expected, task, close);
            && (out.result.Ok? <==> sid in w.disk.sessions && w.disk.sessions[sid].active
                                    && w.disk.sessions[sid].epoch == expected && w.disk.sessions[sid].clockId == w.mem.clockId)
            && (out.result.Ok? && w.disk.sessions[sid].id == sid ==>
                  var s := out.result.value;
                  && sid in out.world.disk.sessions && out.world.disk.sessions[sid] == s
                  && s.epoch == expected + 1 && s.taskRevision == task && s.active == !close && s.bufferUntil.None?
                  && (forall x :: x in w.disk.sessions && x != sid ==>
                        x in out.world.disk.sessions && out.world.disk.sessions[x] == w.disk.sessions[x]))
            && (out.result.Err? ==> out.world == w)
  {
  }

  /** A session is opened exactly if it is not already active; it is then active under the present clock,
      one epoch on if it was known, and a new job made for it is abreast of it. */
  lemma OpenAnswers(cfg: Config, w: World, sid: string, task: string)
    ensures var out := OpenSession(cfg, w, sid, task);
            && (out.result.Ok? <==> !(sid in w.disk.sessions && w.disk.sessions[sid].active))
            && (out.result.Err? ==> out.world == w)
            && (out.result.Ok? ==>
                  var s := out.result.value;
                  && out.world == w.(disk := w.disk.(sessions := w.disk.sessions[sid := s]))
                  && s.epoch == (if sid in w.disk.sessions then w.disk.sessions[sid].epoch + 1 else 0)
                  && forall job: Job | job.tenant == cfg.tenant && job.sessionId == sid && job.epoch == s.epoch
                                       && job.taskRevision == task && job.clockId == w.mem.clockId ::
                       Abreast(job, s, w.mem.clockId))
  {
  }

  /** A heartbeat is heard exactly if it names the present epoch of an open session under the present clock
      and announces a buffer of at most sixty seconds; from then on that buffer bounds policy jobs, and no
      other job or session notices. */
  lemma HeartbeatAnswers(w: World, sid: string, expected: nat, buffer: Option<nat>, job: Job, t: int)
    ensures var out := Heartbeat(w, sid, expected, buffer);
            && (out.result.Ok? <==>
                  && sid in w.disk.sessions && w.disk.sessions[sid].active && w.disk.sessions[sid].epoch == expected
                  && w.disk.sessions[sid].clockId == w.mem.clockId
                  && (buffer.Some? ==> w.mem.now <= buffer.value && buffer.value - w.mem.now <= 60_000_000_000))
            && (out.result.Err? ==> out.world == w)
            && (out.result.Ok? ==>
                  var was, s := w.disk.sessions[sid], out.result.value;
                  && out.world == w.(disk := w.disk.(sessions := w.disk.sessions[sid := s]))
                  && (Abreast(job, s, w.mem.clockId) <==> Abreast(job, was, w.mem.clockId))
                  && (job.workload != Policy ==> (InTime(job, s, t) <==> InTime(job, was, t)))
                  && (job.workload == Policy ==>
                        (InTime(job, s, t) <==>
                         InTime(job, was.(bufferUntil := None), t) && (buffer.Some? ==> t < buffer.value))))
  {
  }

  /** Each epoch is advanced from once: after that nobody who still names it advances the session or is
      heard, whatever happens next. */
  lemma EpochIsSwappedOnce(cfg: Config, w: World, sid: string, expected: nat, task: string, close: bool, steps: seq<Step>,
                           again: string, buffer: Option<nat>)
    requires cfg.Valid() && Reachable(cfg, w) && AdvanceSession(w, sid, expected, task, close).result.Ok?
    ensures var n := Exec(cfg, AdvanceSession(w, sid, expected, task, close).world, steps);
            && AdvanceSession(n, sid, expected, again, close).result == Err(Permission)
            && Heartbeat(n, sid, expected, buffer).result == Err(Permission)
  {
    hide Inv, Exec, Reachable, AttemptsGrow, HistoryGrows, HitsGrow, RowsGrow, AdvanceSession;
    ReachableInv(cfg, w);
    SessionIds(cfg, w);
    AdvanceAnswers(w, sid, expected, task, close);
    AdvanceKeeps(cfg, w, sid, expected, task, close);
    var m := AdvanceSession(w, sid, expected, task, close).world;
    assert w.disk.sessions[sid].id == sid by { SessionsOfInv(cfg, w); }
    RunKeeps(cfg, m, steps);
    var n := Exec(cfg, m, steps);
    assert SessionGrows(m.disk.sessions[sid], n.disk.sessions[sid]);
    AdvanceAnswers(n, sid, expected, again, close);
    StaleEpoch(n, sid, expected, again, close);
  }

  lemma StaleEpoch(w: World, sid: string, expected: nat, task: string, close: bool)
    requires sid in w.disk.sessions && w.disk.sessions[sid].epoch > expected
    ensures AdvanceSession(w, sid, expected, task, close).result == Err(Permission)
  {
  }

  /** Opening a session never reuses an epoch. */
  lemma EpochsAreFresh(cfg: Config, w: World, steps: seq<Step>, sid: string, task: string)
    requires cfg.Valid() && Reachable(cfg, w) && sid in w.disk.sessions
    ensures var n := Exec(cfg, w, steps);
            && sid in n.disk.sessions && w.disk.sessions[sid].epoch <= n.disk.sessions[sid].epoch
            && (OpenSession(cfg, n, sid, task).result.Ok? ==>
                  OpenSession(cfg, n, sid, task).result.value.epoch > w.disk.sessions[sid].epoch)
  {
    hide Inv, Exec, Reachable, AttemptsGrow, HistoryGrows, HitsGrow;
    ReachableInv(cfg, w);
    RunKeeps(cfg, w, steps);
    var n := Exec(cfg, w, steps);
    assert SessionGrows(w.disk.sessions[sid], n.disk.sessions[sid]);
  }

  /** A claimed result belongs to its first consumer, who always gets the same receipt. */
  lemma FirstConsumerKeeps(cfg: Config, w: World, steps: seq<Step>, id: string, first: string, next: string)
    requires cfg.Valid() && Reachable(cfg, w) && Consume(w, id, first).result.Ok?
    ensures var n := Exec(cfg, Consume(w, id, first).world, steps);
            Consume(n, id, next).result.Ok? ==>
              next == first && Consume(n, id, next) == Out(n, Ok(Consume(w, id, first).result.value))
  {
    hide Inv, Exec, Reachable, AttemptsGrow, HistoryGrows, HitsGrow;
    ReachableInv(cfg, w);
    var m := Consume(w, id, first).world;
    ConsumeKeeps(cfg, w, id, first);
    ClaimIsStored(cfg, w, id, first);
    RunKeeps(cfg, m, steps);
    assert RowGrows(m.disk.jobs[id], Exec(cfg, m, steps).disk.jobs[id]);
  }

  lemma ClaimIsStored(cfg: Config, w: World, id: string, who: string)
    requires Inv(cfg, w) && Consume(w, id, who).result.Ok?
    ensures var m := Consume(w, id, who).world;
            && id in m.disk.jobs && m.disk.jobs[id].receipt == Consume(w, id, who).result.value
            && m.disk.jobs[id].receipt.consumedBy == Some(who) && StateOf(m.disk, id) == Consumed
            && m.disk.jobs[id].receipt.prediction.Some?
  {
    hide Inv;
    InvLocal(cfg, w, id);
  }

  // ---- cache hits ----

  /** A hit repeats the result and compute time of a job that a backend served under the same contract
      for the same work in the same session, epoch and task, and has no attempt of its own. */
  lemma HitsAreSourced(cfg: Config, w: World, id: string)
    requires cfg.Valid() && Reachable(cfg, w) && id in w.disk.jobs && w.disk.jobs[id].receipt.cacheHit
    ensures id !in w.disk.attempts
    ensures exists j :: j in w.served && HitFrom(cfg, w, id, j)
  {
    hide Inv, Grows, Exec;
    ReachableInv(cfg, w);
    var attempts: nat, money: nat, steps: seq<Step> :| w == Exec(cfg, Start(attempts, money), steps);
    StartKept(cfg, attempts, money);
    RunKeeps(cfg, Start(attempts, money), steps);
    NewHit(cfg, Start(attempts, money), w, id);
    var j :| SourcedBy(cfg, w, id, j);
    SourceIsHit(cfg, w, id, j);
  }

  lemma NewHit(cfg: Config, w: World, n: World, id: string)
    requires Grows(cfg, w, n) && id !in w.disk.jobs && id in n.disk.jobs && n.disk.jobs[id].receipt.cacheHit
    ensures Sourced(cfg, n, id) && id !in n.disk.attempts
  {
    assert WasHit(n.disk, id) && !WasHit(w.disk, id);
  }

  ghost predicate HitFrom(cfg: Config, w: World, id: string, j: string)
    requires id in w.disk.jobs
  {
    && j in w.disk.jobs && j in w.disk.attempts && Used(w.calls, j) == 1
    && !w.disk.jobs[j].receipt.cacheHit && w.disk.jobs[j].receipt.prediction.Some?
    && w.disk.jobs[id].receipt.prediction == w.disk.jobs[j].receipt.prediction
    && w.disk.jobs[id].receipt.computed == w.disk.jobs[j].receipt.computed
    && var a, b := w.disk.jobs[id].job, w.disk.jobs[j].job;
       && a.model in cfg.models && b.model in cfg.models && cfg.models[a.model] == cfg.models[b.model]
       && SameLine(a, b) && a.tenant == b.tenant && a.model == b.model && a.operation == b.operation
       && a.payload == b.payload && a.observations == b.observations && a.snapshot == b.snapshot
       && a.kind == Historical && b.kind == Historical
  }

  lemma SourceIsHit(cfg: Config, w: World, id: string, j: string)
    requires Inv(cfg, w) && id in w.disk.jobs && SourcedBy(cfg, w, id, j)
    ensures HitFrom(cfg, w, id, j)
  {
    hide Inv;
    InvLocal(cfg, w, j);
    assert ViewOf(w, j).served == Some(w.served[j]);
    var a, b := w.disk.jobs[id].job, w.disk.jobs[j].job;
    assert Work(a) == Work(b);
    assert Work(a).observations == a.observations && Work(b).observations == b.observations;
    assert Work(a).sessionId == a.sessionId && Work(b).sessionId == b.sessionId;
  }

  lemma ServeServes(cfg: Config, w: World, id: string)
    requires cfg.Valid()
    ensures Serve(cfg, w, id).served == w.served
  {
    hide Job.InvalidReason, Place, CanReserve, Cache.Get, KeyFor, DepsDone;
  }

  lemma SubmitServes(cfg: Config, w: World, job: Job)
    ensures Submit(cfg, w, job).world.served == w.served
  {
    hide Refusal, Judge, Supersede, AddObservations;
  }

  /** Only the end of a call adds a served result. */
  lemma ServedIs(cfg: Config, w: World, s: Step)
    requires cfg.Valid() && Live(s) && !Fatal(s) && !s.FinishStep?
    ensures ApplyLive(cfg, w, s).served == w.served
  {
    hide Job.InvalidReason, Serve, Submit, DepsAlive;
    if s.ServeStep? { ServeServes(cfg, w, s.id); }
    if s.SubmitStep? { SubmitServes(cfg, w, s.job); }
  }

  lemma StepServes(cfg: Config, w: World, s: Step)
    requires cfg.Valid() && !s.FinishStep? && !s.FinishCrash?
    ensures Apply(cfg, w, s).served == w.served
  {
    hide ApplyLive, Place, CanReserve, Judge, Supersede, Refusal, RecoverJob, RecoverReserved, CloseOne, Recover, Reconcile;
    if Live(s) && !Fatal(s) { ServedIs(cfg, w, s); }
  }

  lemma WriteHits(d: Disk, e: Disk, id: string, r: Receipt, x: string)
    requires id in d.jobs && e.jobs == SetReceipt(d, id, r).jobs && r.cacheHit == d.jobs[id].receipt.cacheHit
    ensures WasHit(e, x) == WasHit(d, x)
  {
  }

  lemma CompleteHits(cfg: Config, w: World, id: string, p: Prediction, x: string)
    requires id in w.mem.tasks && Has(w.disk, id)
    ensures WasHit(Complete(cfg, w, id, p).disk, x) == WasHit(w.disk, x)
  {
    hide Job.InvalidReason, WasHit, SettleAttempt, EndTask, Cache.Put;
    var done := Completed(w.disk.jobs[id].receipt, ReasonNow(w, id), p, w.mem.now);
    WriteHits(w.disk, Complete(cfg, w, id, p).disk, id, done, x);
  }

  lemma AbortHits(w: World, id: string, code: string, ending: Ending, x: string)
    requires id in w.mem.tasks && Has(w.disk, id)
    ensures WasHit(Abort(w, id, code, ending).disk, x) == WasHit(w.disk, x)
  {
    hide WasHit, SettleAttempt, EndTask;
    WriteHits(w.disk, Abort(w, id, code, ending).disk, id, Aborted(w.disk.jobs[id].receipt, code, ending, w.mem.now), x);
  }

  lemma FinishHits(cfg: Config, w: World, id: string, outcome: Outcome, x: string)
    ensures WasHit(Finish(cfg, w, id, outcome).disk, x) == WasHit(w.disk, x)
  {
    hide WasHit, Complete, Abort;
    if id in w.mem.tasks && w.mem.tasks[id].sent && Has(w.disk, id) {
      match Checked(w.disk.jobs[id].receipt, outcome, w.mem.now)
      case Returned(p) => CompleteHits(cfg, w, id, p, x);
      case Raised(code, ending) => AbortHits(w, id, code, ending, x);
    }
  }

  lemma HandlerHits(d: Disk, id: string, pool: string, code: string, now: nat, writes: nat, x: string)
    requires id in d.jobs
    ensures WasHit(HandlerCut(d, id, pool, code, now, writes), x) == WasHit(d, x)
  {
    hide WasHit, SettleAttempt;
    var n := HandlerCut(d, id, pool, code, now, writes);
    if writes >= 2 {
      WriteHits(d, n, id, Aborted(d.jobs[id].receipt, code, Unconfirmed, now), x);
    } else {
      SameHits(d, n, x);
    }
  }

  lemma SameHits(d: Disk, e: Disk, x: string)
    requires e.jobs == d.jobs
    ensures WasHit(e, x) == WasHit(d, x)
  {
  }

  lemma CrashHits(w: World, x: string)
    ensures WasHit(Crash(w).disk, x) == WasHit(w.disk, x)
  {
  }

  lemma SettledHits(w: World, id: string, cost: Option<nat>, x: string)
    ensures WasHit(SettledOnly(w, id, cost).disk, x) == WasHit(w.disk, x)
  {
  }

  lemma HandlerCrashHits(w: World, id: string, code: string, writes: nat, x: string)
    requires id in w.disk.jobs && id in w.mem.tasks
    ensures WasHit(HandlerCrash(w, id, code, writes).disk, x) == WasHit(w.disk, x)
  {
    hide WasHit, HandlerCut;
    HandlerHits(w.disk, id, w.mem.tasks[id].endpoint.pool, code, w.mem.now, writes, x);
  }

  lemma CutHits(cfg: Config, w: World, id: string, outcome: Outcome, writes: nat, x: string)
    ensures WasHit(FinishCut(cfg, w, id, outcome, writes).disk, x) == WasHit(w.disk, x)
  {
    hide WasHit, Finish, HandlerCrash, SettledOnly, Crash, Checked;
    CrashHits(w, x);
    if id in w.mem.tasks && w.mem.tasks[id].sent && id in w.disk.jobs && writes > 0 {
      match Checked(w.disk.jobs[id].receipt, outcome, w.mem.now)
      case Returned(p) =>
        ClosedHits(cfg, w, id, outcome, p.usage.cost, x);
      case Raised(code, ending) =>
        if ending == Unconfirmed {
          HandlerCrashHits(w, id, code, writes, x);
        } else {
          ClosedHits(cfg, w, id, outcome, if ending == NotSent then Some(0) else None, x);
        }
    }
  }

  lemma ClosedHits(cfg: Config, w: World, id: string, outcome: Outcome, cost: Option<nat>, x: string)
    ensures WasHit(Crash(Finish(cfg, w, id, outcome)).disk, x) == WasHit(w.disk, x)
    ensures WasHit(SettledOnly(w, id, cost).disk, x) == WasHit(w.disk, x)
  {
    hide WasHit, Finish, SettledOnly, Crash;
    FinishHits(cfg, w, id, outcome, x);
    CrashHits(Finish(cfg, w, id, outcome), x);
    SettledHits(w, id, cost, x);
  }

  /** Served, by the one call it made. */
  predicate HadServed(w: World, j: string) {
    j in w.served && Used(w.calls, j) == 1 && j in w.disk.jobs && w.disk.jobs[j].receipt.prediction == Some(w.served[j].payload)
  }

  lemma ServedOnce(cfg: Config, w: World, j: string)
    requires Inv(cfg, w) && j in w.served
    ensures HadServed(w, j)
  {
    hide Inv;
    assert j in w.disk.jobs by { ServedFiled(cfg, w, j); }
    InvLocal(cfg, w, j);
    assert ViewOf(w, j).served == Some(w.served[j]);
  }

  lemma ServedFiled(cfg: Config, w: World, j: string)
    requires Inv(cfg, w) && j in w.served
    ensures j in w.disk.jobs
  {
  }

  /** A step that ends a call makes no hit. */
  lemma NewHitServes(cfg: Config, w: World, s: Step, id: string)
    requires cfg.Valid() && WasHit(Apply(cfg, w, s).disk, id) && !WasHit(w.disk, id)
    ensures Apply(cfg, w, s).served == w.served
  {
    hide ApplyOffline, ApplyOperator, Finish, FinishCut;
    match s
    case FinishStep(x, outcome) => FinishHits(cfg, w, x, outcome, id);
    case FinishCrash(x, outcome, writes) => CutHits(cfg, w, x, outcome, writes, id);
    case _ => StepServes(cfg, w, s);
  }

  /** A hit is made only when its source has already been served: the answer to that job's one call was
      on record before the step. */
  lemma HitsRepeatThePast(cfg: Config, w: World, s: Step, id: string)
    requires cfg.Valid() && Reachable(cfg, w) && WasHit(Apply(cfg, w, s).disk, id) && !WasHit(w.disk, id)
    ensures exists j :: HadServed(w, j) && HitFrom(cfg, Apply(cfg, w, s), id, j)
  {
    hide Inv, Apply, RowsGrow, AttemptsGrow, SessionsGrow, HistoryGrows, HitFrom, HadServed, Reachable;
    ReachableInv(cfg, w);
    StepKeeps(cfg, w, s);
    var n := Apply(cfg, w, s);
    NewHitServes(cfg, w, s, id);
    var j :| SourcedBy(cfg, n, id, j);
    SourceIsHit(cfg, n, id, j);
    ServedOnce(cfg, w, j);
  }

  /** Serving a job from the cache changes no attempt, charge, cap or call. */
  lemma HitIsFree(cfg: Config, w: World, id: string)
    requires cfg.Valid() && Servable(w, id) && ReasonNow(w, id).None?
    requires Cache.Get(cfg.limits, w.mem.cache, KeyFor(cfg, w.disk.jobs[id].job), w.mem.now).hit.Some?
    ensures var n := Serve(cfg, w, id);
            && n.disk.attempts == w.disk.attempts && Known(n.disk) == Known(w.disk) && Held(n.disk) == Held(w.disk)
            && n.calls == w.calls && n.remote == w.remote && n.mem.tasks == w.mem.tasks
            && n.disk.jobs[id].receipt.cacheHit && StateOf(n.disk, id) == Succeeded
  {
    var n := Serve(cfg, w, id);
    assert n.disk.attempts == w.disk.attempts;
    assert Knowns(n.disk) == Knowns(w.disk) && Holds(n.disk) == Holds(w.disk);
  }

  // ---- dependencies ----

  /** A chain of jobs, each depending on the next. */
  ghost predicate Chain(d: Disk, path: seq<string>) {
    && (forall i :: 0 <= i < |path| ==> path[i] in d.jobs)
    && (forall i :: 0 <= i < |path| - 1 ==> path[i + 1] in d.jobs[path[i]].job.dependencies)
  }

  lemma SourcesChain(a: Job, b: Job, c: Job)
    requires SourcesWithin(a, b) && SourcesWithin(b, c)
    ensures SourcesWithin(a, c)
  {
    forall o | o in a.observations ensures exists x :: x in c.observations && x.Identity() == o.Identity() {
      var y :| y in b.observations && y.Identity() == o.Identity();
      var x :| x in c.observations && x.Identity() == y.Identity();
    }
  }

  /** Every transitive ancestor was submitted earlier, shares session, epoch and task, has its evidence
      contained in the descendant's, and has produced a prediction if the descendant was dispatched or
      has one. */
  lemma {:induction false} AncestorsAreSound(cfg: Config, w: World, path: seq<string>)
    requires Inv(cfg, w) && Chain(w.disk, path) && |path| >= 2
    ensures var top, bottom := w.disk.jobs[path[0]], w.disk.jobs[path[|path| - 1]];
            && bottom.rowid < top.rowid && SameLine(bottom.job, top.job) && SourcesWithin(bottom.job, top.job)
            && (path[0] in w.disk.attempts || top.receipt.prediction.Some? ==> bottom.receipt.prediction.Some?)
  {
    hide Locals, Solvent, Seats, UseOk, CacheOk, SlotOrder, SourcesWithin, Owned;
    var d, n := w.disk, |path| - 1;
    assert path[1] in d.jobs[path[0]].job.dependencies;
    assert EdgeOk(d, path[0], path[1]);
    if path[0] in d.attempts || d.jobs[path[0]].receipt.prediction.Some? {
      assert Fed(d, path[0]);
    }
    if n > 1 {
      var rest := path[1..];
      assert rest[n - 1] == path[n];
      forall i | 0 <= i < |rest| - 1 ensures rest[i + 1] in d.jobs[rest[i]].job.dependencies {
        assert path[i + 2] in d.jobs[path[i + 1]].job.dependencies;
      }
      AncestorsAreSound(cfg, w, rest);
      SourcesChain(d.jobs[path[n]].job, d.jobs[path[1]].job, d.jobs[path[0]].job);
    }
  }

  /** So on every run no job is its own ancestor, and ancestors come first. */
  lemma AncestryIsSound(cfg: Config, w: World, path: seq<string>)
    requires cfg.Valid() && Reachable(cfg, w) && Chain(w.disk, path) && |path| >= 2
    ensures path[0] != path[|path| - 1]
    ensures var top, bottom := w.disk.jobs[path[0]], w.disk.jobs[path[|path| - 1]];
            && SameLine(bottom.job, top.job) && SourcesWithin(bottom.job, top.job)
            && (path[0] in w.disk.attempts || top.receipt.prediction.Some? ==> bottom.receipt.prediction.Some?)
  {
    hide Inv, Reachable;
    ReachableInv(cfg, w);
    AncestorsAreSound(cfg, w, path);
  }

  // ---- the queue ----

  /** The queue is bounded, and within one replacement slot queued snapshots strictly increase. */
  lemma QueueIsInOrder(cfg: Config, w: World)
    requires cfg.Valid() && Reachable(cfg, w) && w.up
    ensures |QueuedIds(w.disk)| <= cfg.maxQueue
    ensures forall a, b :: InState(w.disk, a, Queued) && InState(w.disk, b, Queued) && w.disk.jobs[a].job.replaceKey.Some?
                           && SameSlot(w.disk.jobs[a].job, w.disk.jobs[b].job)
                               && w.disk.jobs[a].rowid < w.disk.jobs[b].rowid ==>
              w.disk.jobs[a].job.snapshot < w.disk.jobs[b].job.snapshot
  {
    ReachableInv(cfg, w);
    QueuedListed(w.disk);
  }

  /** A submission supersedes only queued jobs of its own slot, older than it, on which no queued or
      running job depends. */
  lemma ReplacementIsSafe(cfg: Config, w: World, job: Job, x: string)
    requires cfg.Valid() && Reachable(cfg, w) && x in w.disk.jobs
    requires !InState(Submit(cfg, w, job).world.disk, x, StateOf(w.disk, x))
    ensures InState(w.disk, x, Queued) && InState(Submit(cfg, w, job).world.disk, x, Superseded)
    ensures job.replaceKey.Some? && SameSlot(w.disk.jobs[x].job, job) && w.disk.jobs[x].job.snapshot < job.snapshot
    ensures !DependedOn(w.disk, x)
  {
    hide Inv, Refusal, DependedOn, SameSlot, Reachable, Submit, Judge;
    ReachableInv(cfg, w);
    InvOrder(cfg, w);
    SubmitStates(cfg, w, job, x);
    if Reaches(cfg, w, job) { JudgedReplaces(cfg, w, job, x); }
  }

  lemma JudgedReplaces(cfg: Config, w: World, job: Job, x: string)
    requires OrderOk(w.disk) && job.sessionId in w.disk.sessions && x in Judge(cfg, w, job).superseded
    ensures InState(w.disk, x, Queued) && job.replaceKey.Some? && SameSlot(w.disk.jobs[x].job, job)
    ensures w.disk.jobs[x].job.snapshot < job.snapshot && !DependedOn(w.disk, x)
  {
    hide DependedOn, SameSlot, Allowed, QueuedIds;
    QueuedListed(w.disk);
    ScanSelects(w.disk, job, QueuedIds(w.disk));
  }

  /** `submit` moves no state but that of the jobs it supersedes. */
  lemma SubmitStates(cfg: Config, w: World, job: Job, x: string)
    requires OrderOk(w.disk) && x in w.disk.jobs
    ensures var d := Submit(cfg, w, job).world.disk;
            || InState(d, x, StateOf(w.disk, x))
            || (Reaches(cfg, w, job) && job.sessionId in w.disk.sessions
                && x in Judge(cfg, w, job).superseded && InState(d, x, Superseded))
  {
    hide Refusal;
    if Reaches(cfg, w, job) {
      SubmitIs(cfg, w, job);
      var v := Judge(cfg, w, job);
      hide Judge;
      assert v.superseded[..|v.superseded|] == v.superseded;
      SupersedeStates(w.disk, v.superseded, x);
      SupersedeStates(w.disk, [], x);
      hide Submit;
    }
  }

  lemma {:induction false} SupersedeStates(d: Disk, ids: seq<string>, x: string)
    requires x in d.jobs
    ensures x in Supersede(d, ids).jobs
    ensures StateOf(Supersede(d, ids), x) == if x in ids then Superseded else StateOf(d, x)
    decreases |ids|
  {
    if ids != [] {
      var e := SetState(d, ids[0], Superseded, ExplicitReplacement);
      SupersedeStates(e, ids[1..], x);
      assert ids == [ids[0]] + ids[1..];
    }
  }
}
