/** Every step of the coordinator only moves records forward. */
module GrowthSteps {
  import opened Basics
  import opened Contracts
  import opened Scheduling
  import opened Ledger
  import opened Coordinator
  import opened Invariant
  import opened Steps
  import opened TaskSteps
  import opened TaskEnds
  import opened WorldSteps
  import opened SubmitSteps
  import opened RecoverSteps
  import opened Growth
  import Cache

  // ---- submission ----

  lemma AddGrows(cfg: Config, w: World, known: Observations, job: Job, r: Receipt)
    requires job.id !in w.disk.jobs && !r.cacheHit
    ensures Grows(cfg, w, Adding(w, known, job, r))
  {
    var n := Adding(w, known, job, r);
    forall x | x in w.disk.jobs ensures RowGrows(w.disk.jobs[x], n.disk.jobs[x]) { }
    forall sid | sid in w.disk.sessions ensures SessionGrows(w.disk.sessions[sid], n.disk.sessions[sid]) { }
  }

  lemma {:induction false} SupersedeGrows(cfg: Config, w: World, ids: seq<string>)
    requires Distinct(ids) && forall x :: x in ids ==> InState(w.disk, x, Queued)
    ensures Grows(cfg, w, w.(disk := Supersede(w.disk, ids)))
    decreases |ids|
  {
    hide Grows;
    if ids == [] {
      SameGrows(cfg, w, w);
      assert w.(disk := w.disk) == w;
    } else {
      var n := w.(disk := SetState(w.disk, ids[0], Superseded, ExplicitReplacement));
      assert InState(w.disk, ids[0], Queued);
      DeadenGrows(cfg, w, ids[0], Superseded, ExplicitReplacement);
      forall y | y in ids[1..] ensures InState(n.disk, y, Queued) { assert y in ids && y != ids[0]; }
      SupersedeGrows(cfg, n, ids[1..]);
      assert n.(disk := Supersede(n.disk, ids[1..])) == w.(disk := Supersede(w.disk, ids));
      GrowsOn(cfg, w, n, w.(disk := Supersede(w.disk, ids)));
    }
  }

  lemma SubmittedGrows(cfg: Config, w: World, job: Job, known: Observations, upto: nat)
    requires Inv(cfg, w) && Reaches(cfg, w, job)
    ensures job.sessionId in w.disk.sessions
    ensures Grows(cfg, w, Submitted(cfg, w, job, known, upto))
  {
    hide Inv, Grows, Refusal;
    InvOrder(cfg, w);
    ReachesFits(cfg, w, job);
    PrefixOf(cfg, w, job, upto);
    var v := Judge(cfg, w, job);
    var sup := if v.reason.Some? then [] else if upto <= |v.superseded| then v.superseded[..upto] else v.superseded;
    hide Judge;
    SupersedeGrows(cfg, w, sup);
    SupersedeLeaves(w.disk, sup);
    var mid := w.(disk := Supersede(w.disk, sup));
    AddGrows(cfg, mid, known, job, NewReceipt(job, v.reason, w.mem.now));
    GrowsOn(cfg, w, mid, Submitted(cfg, w, job, known, upto));
  }

  lemma SubmitGrows(cfg: Config, w: World, job: Job)
    requires Inv(cfg, w)
    ensures Grows(cfg, w, Submit(cfg, w, job).world)
  {
    hide Inv, Grows, Refusal;
    InvOrder(cfg, w);
    SameGrows(cfg, w, w);
    if Reaches(cfg, w, job) {
      SubmitIs(cfg, w, job);
      var known := AddObservations(w.disk.observations, job.sessionId, job.observations);
      if known.Some? { SubmittedGrows(cfg, w, job, known.value, |Judge(cfg, w, job).superseded|); }
    }
  }

  // ---- service ----

  lemma QueuedIsNew(cfg: Config, w: World, id: string)
    requires Inv(cfg, w) && w.up && InState(w.disk, id, Queued)
    ensures id !in w.disk.attempts && w.disk.jobs[id].receipt.prediction.None? && !w.disk.jobs[id].receipt.cacheHit
  {
    hide Inv;
    InvLocal(cfg, w, id);
    assert ViewOf(w, id).attempt == At(w.disk.attempts, id);
  }

  lemma CacheOfInv(cfg: Config, w: World)
    requires Inv(cfg, w) && w.up
    ensures CacheOk(cfg, w)
  {
  }

  /** A hit's result was served by a backend for the same key. */
  lemma HitSourced(cfg: Config, w: World, id: string)
    requires CacheOk(cfg, w) && id in w.disk.jobs
    requires Cache.Get(cfg.limits, w.mem.cache, KeyFor(cfg, w.disk.jobs[id].job), w.mem.now).hit.Some?
    ensures var hit := Cache.Get(cfg.limits, w.mem.cache, KeyFor(cfg, w.disk.jobs[id].job), w.mem.now).hit.value;
            Sourced(cfg, WithReceipt(w, id, Finished(w.disk.jobs[id].receipt, hit, w.mem.now)), id)
  {
    var key := KeyFor(cfg, w.disk.jobs[id].job);
    Cache.FindFinds(w.mem.cache, key.value);
    var item := Cache.Find(w.mem.cache, key.value).value;
    var j :| Source(cfg, w, item, j);
    var n := WithReceipt(w, id, Finished(w.disk.jobs[id].receipt, Cache.Hit(item.payload, item.computed), w.mem.now));
    assert n.disk.jobs[j].job == w.disk.jobs[j].job;
    assert SourcedBy(cfg, n, id, j);
  }

  lemma HitGrows(cfg: Config, w: World, id: string, data: Cache.Items)
    requires Inv(cfg, w) && w.up && InState(w.disk, id, Queued)
    requires Cache.Get(cfg.limits, w.mem.cache, KeyFor(cfg, w.disk.jobs[id].job), w.mem.now).hit.Some?
    ensures var hit := Cache.Get(cfg.limits, w.mem.cache, KeyFor(cfg, w.disk.jobs[id].job), w.mem.now).hit.value;
            var r := Finished(w.disk.jobs[id].receipt, hit, w.mem.now);
            Grows(cfg, w, WithReceipt(w.(mem := w.mem.(cache := data)), id, r))
  {
    hide Inv, Grows, Sourced, CacheOk;
    QueuedIsNew(cfg, w, id);
    CacheOfInv(cfg, w);
    HitSourced(cfg, w, id);
    var hit := Cache.Get(cfg.limits, w.mem.cache, KeyFor(cfg, w.disk.jobs[id].job), w.mem.now).hit.value;
    var r := Finished(w.disk.jobs[id].receipt, hit, w.mem.now);
    WriteGrows(cfg, w, id, r);
    SameGrows(cfg, WithReceipt(w, id, r), WithReceipt(w.(mem := w.mem.(cache := data)), id, r));
    GrowsOn(cfg, w, WithReceipt(w, id, r), WithReceipt(w.(mem := w.mem.(cache := data)), id, r));
  }

  lemma ReservedGrows(cfg: Config, w: World, id: string, ep: Endpoint)
    requires Inv(cfg, w) && w.up && InState(w.disk, id, Queued)
    ensures Grows(cfg, w, w.(disk := Reserve(w.disk, id, ep)))
  {
    hide Inv, Grows;
    QueuedIsNew(cfg, w, id);
    AttemptWriteGrows(cfg, w, id, Attempt(ep.pool, ep.id, ep.reserve, None, Reserved));
  }

  lemma DispatchGrows(cfg: Config, w: World, id: string, ep: Endpoint, key: Option<CacheKey>)
    requires Inv(cfg, w) && w.up && InState(w.disk, id, Queued)
    ensures Grows(cfg, w, Dispatch(w, id, ep, key))
  {
    hide Inv, Grows;
    QueuedIsNew(cfg, w, id);
    ReservedGrows(cfg, w, id, ep);
    var a := w.(disk := Reserve(w.disk, id, ep));
    var r := Started(w.disk.jobs[id].receipt, ep, w.mem.now);
    WriteGrows(cfg, a, id, r);
    var b, n := WithReceipt(a, id, r), Dispatch(w, id, ep, key);
    SameGrows(cfg, b, n);
    GrowsOn(cfg, w, a, b);
    GrowsOn(cfg, w, b, n);
  }

  lemma PlacedGrows(cfg: Config, w: World, id: string)
    requires cfg.Valid() && Inv(cfg, w) && w.up && Servable(w, id)
    ensures Grows(cfg, w, Placed(cfg, w, id))
  {
    hide Inv, Grows;
    SameGrows(cfg, w, w);
    if Place(cfg, w, id).Chosen? {
      if CanReserve(w.disk, Place(cfg, w, id).endpoint.reserve) {
        DispatchGrows(cfg, w, id, Place(cfg, w, id).endpoint, KeyFor(cfg, w.disk.jobs[id].job));
      } else {
        DeadenGrows(cfg, w, id, Rejected, AttemptOrCostCeiling);
      }
    }
  }

  lemma ServeGrows(cfg: Config, w: World, id: string)
    requires cfg.Valid() && Inv(cfg, w) && w.up
    ensures Grows(cfg, w, Serve(cfg, w, id))
  {
    hide Inv, Grows;
    SameGrows(cfg, w, w);
    if Servable(w, id) {
      var reason := ReasonNow(w, id);
      if reason.Some? {
        DeadenGrows(cfg, w, id, Lapse(reason.value), reason.value);
      } else {
        var key := KeyFor(cfg, w.disk.jobs[id].job);
        var lookup := Cache.Get(cfg.limits, w.mem.cache, key, w.mem.now);
        if lookup.hit.Some? {
          HitGrows(cfg, w, id, lookup.data);
        } else {
          MissGrows(cfg, w, id);
        }
      }
    }
  }

  lemma MissGrows(cfg: Config, w: World, id: string)
    requires cfg.Valid() && Inv(cfg, w) && w.up && Servable(w, id) && ReasonNow(w, id).None?
    requires Cache.Get(cfg.limits, w.mem.cache, KeyFor(cfg, w.disk.jobs[id].job), w.mem.now).hit.None?
    ensures Grows(cfg, w, Serve(cfg, w, id))
  {
    hide Inv, Grows;
    MissIsPlaced(cfg, w, id);
    hide Placed, Serve;
    LookupStep(cfg, w, KeyFor(cfg, w.disk.jobs[id].job));
    SameGrows(cfg, w, Looked(cfg, w, id));
    PlacedGrows(cfg, Looked(cfg, w, id), id);
    GrowsOn(cfg, w, Looked(cfg, w, id), Serve(cfg, w, id));
  }

  // ---- the end of a task ----

  lemma EndedGrows(cfg: Config, w: World, id: string, e: End)
    requires Inv(cfg, w) && id in w.mem.tasks && id in w.disk.jobs && EndOk(ViewOf(w, id), e)
    ensures Grows(cfg, w, Ended(w, id, e))
  {
    hide Inv, Grows, Local;
    InFlight(cfg, w, id);
    var v := ViewOf(w, id);
    EndForward(cfg, v, w.mem.tasks[id], e);
    var a := w.(disk := Settle(w.disk, id, e.cost));
    SettleGrows(cfg, w, id, e.cost);
    var b := WithReceipt(a, id, e.receipt);
    WriteGrows(cfg, a, id, e.receipt);
    var n := Ended(w, id, e);
    assert id !in w.served;
    SameGrows(cfg, b, n);
    GrowsOn(cfg, w, a, b);
    GrowsOn(cfg, w, b, n);
  }

  lemma EndForward(cfg: Config, v: View, t: Task, e: End)
    requires TaskOk(cfg, v, t) && EndOk(v, e)
    ensures ReceiptGrows(v.receipt, e.receipt) && !e.receipt.cacheHit && v.served.None?
  {
  }

  lemma BeginGrows(cfg: Config, w: World, id: string)
    requires Inv(cfg, w)
    ensures Grows(cfg, w, Begin(w, id))
  {
    hide Inv, Local, TaskOk, Grows;
    SameGrows(cfg, w, w);
    if id in w.mem.tasks && !w.mem.tasks[id].sent && Has(w.disk, id) {
      var reason := ReasonNow(w, id);
      if reason.Some? {
        InFlight(cfg, w, id);
        var e := Withdrawal(w, id, reason.value);
        EndedGrows(cfg, w, id, e);
        assert Begin(w, id) == Ended(w, id, e);
      } else {
        SameGrows(cfg, w, Begin(w, id));
      }
    }
  }

  lemma AbortGrows(cfg: Config, w: World, id: string, code: string, ending: Ending)
    requires Inv(cfg, w) && id in w.mem.tasks && Has(w.disk, id)
    ensures Grows(cfg, w, Abort(w, id, code, ending))
  {
    hide Inv, Local, Grows;
    InFlight(cfg, w, id);
    var e := Abortion(w, id, code, ending);
    EndedGrows(cfg, w, id, e);
    assert Abort(w, id, code, ending) == Ended(w, id, e);
  }

  lemma CompleteGrows(cfg: Config, w: World, id: string, p: Prediction)
    requires Inv(cfg, w) && id in w.mem.tasks && w.mem.tasks[id].sent && Has(w.disk, id)
    ensures Grows(cfg, w, Complete(cfg, w, id, p))
  {
    hide Inv, Local, Grows;
    InFlight(cfg, w, id);
    var e := Completion(w, id, p);
    EndedGrows(cfg, w, id, e);
    var n := Ended(w, id, e);
    SameGrows(cfg, n, Complete(cfg, w, id, p));
    GrowsOn(cfg, w, n, Complete(cfg, w, id, p));
  }

  lemma FinishGrows(cfg: Config, w: World, id: string, outcome: Outcome)
    requires Inv(cfg, w)
    ensures Grows(cfg, w, Finish(cfg, w, id, outcome))
  {
    hide Inv, Grows;
    if id in w.mem.tasks && w.mem.tasks[id].sent && Has(w.disk, id) {
      match Checked(w.disk.jobs[id].receipt, outcome, w.mem.now)
      case Returned(p) => CompleteGrows(cfg, w, id, p);
      case Raised(code, ending) => AbortGrows(cfg, w, id, code, ending);
    } else {
      SameGrows(cfg, w, w);
    }
  }

  // ---- consumers ----

  lemma ConsumeGrows(cfg: Config, w: World, id: string, who: string)
    requires Inv(cfg, w)
    ensures Grows(cfg, w, Consume(w, id, who).world)
  {
    hide Inv, Grows;
    SameGrows(cfg, w, w);
    if Has(w.disk, id) && ReasonNow(w, id).None? && Delivered(StateOf(w.disk, id))
       && w.disk.jobs[id].receipt.consumedBy.None? {
      InvLocal(cfg, w, id);
      WriteGrows(cfg, w, id, w.disk.jobs[id].receipt.(state := Consumed, consumedBy := Some(who),
          consumedAt := Some(w.mem.now)));
    }
  }

  lemma ExpireGrows(cfg: Config, w: World, id: string)
    ensures Grows(cfg, w, Expire(w, id))
  {
    hide Grows;
    SameGrows(cfg, w, w);
    if Has(w.disk, id) && Pending(StateOf(w.disk, id)) && ReasonNow(w, id).Some? {
      DeadenGrows(cfg, w, id, Lapse(ReasonNow(w, id).value), ReasonNow(w, id).value);
    }
  }

  lemma PruneGrows(cfg: Config, w: World, id: string)
    ensures Grows(cfg, w, Prune(w, id))
  {
    hide Grows;
    SameGrows(cfg, w, w);
    if Prune(w, id) != w { DeadenGrows(cfg, w, id, Rejected, DependencyFailed); }
  }

  lemma CancelGrows(cfg: Config, w: World, id: string)
    ensures Grows(cfg, w, Cancel(w, id).world)
  {
    hide Grows;
    SameGrows(cfg, w, w);
    if id in w.disk.jobs && StateOf(w.disk, id) in {Queued, Running, Succeeded} {
      DeadenGrows(cfg, w, id, Cancelled, ConsumerCancelled);
    }
  }

  lemma ShutOneGrows(cfg: Config, w: World, id: string)
    ensures Grows(cfg, w, ShutOne(w, id))
  {
    hide Grows;
    SameGrows(cfg, w, w);
    if ShutOne(w, id) != w { DeadenGrows(cfg, w, id, Cancelled, CoordinatorShutdown); }
  }

  // ---- sessions ----

  lemma OpenGrows(cfg: Config, w: World, sid: string, task: string)
    ensures Grows(cfg, w, OpenSession(cfg, w, sid, task).world)
  {
    hide Grows;
    SameGrows(cfg, w, w);
    var out := OpenSession(cfg, w, sid, task);
    if out.result.Ok? { SessionWriteGrows(cfg, w, sid, out.result.value); }
  }

  lemma AdvanceGrows(cfg: Config, w: World, sid: string, expected: nat, task: string, close: bool)
    requires Inv(cfg, w)
    ensures Grows(cfg, w, AdvanceSession(w, sid, expected, task, close).world)
  {
    SessionIds(cfg, w);
    hide Inv, Grows;
    SameGrows(cfg, w, w);
    var out := AdvanceSession(w, sid, expected, task, close);
    if out.result.Ok? { SessionWriteGrows(cfg, w, sid, out.result.value); }
  }

  lemma HeartbeatGrows(cfg: Config, w: World, sid: string, expected: nat, buffer: Option<nat>)
    ensures Grows(cfg, w, Heartbeat(w, sid, expected, buffer).world)
  {
    hide Grows;
    SameGrows(cfg, w, w);
    var out := Heartbeat(w, sid, expected, buffer);
    if out.result.Ok? { SessionWriteGrows(cfg, w, sid, out.result.value); }
  }

  // ---- recovery in part ----

  lemma RecoverJobGrows(cfg: Config, w: World, id: string, writes: nat)
    ensures Grows(cfg, w, w.(disk := RecoverJob(w.disk, id, writes)))
  {
    hide Grows;
    SameGrows(cfg, w, w);
    var n := w.(disk := RecoverJob(w.disk, id, writes));
    if id in w.disk.jobs && Pending(StateOf(w.disk, id)) {
      var a := w.(disk := RecoverJob(w.disk, id, 1));
      WriteGrows(cfg, w, id, RecoverReceipt(w.disk.jobs[id].receipt));
      if WasRunning(w.disk, id) && id in w.disk.attempts && writes > 1 {
        var b := w.(disk := RecoverJob(w.disk, id, 2));
        SameGrows(cfg, a, b);
        GrowsOn(cfg, w, a, b);
        if writes > 2 {
          SettleGrows(cfg, b, id, None);
          GrowsOn(cfg, w, b, n);
        }
      }
    } else {
      assert n == w;
    }
  }

  lemma RecoverReservedGrows(cfg: Config, w: World, id: string, writes: nat)
    ensures Grows(cfg, w, w.(disk := RecoverReserved(w.disk, id, writes)))
  {
    hide Grows;
    SameGrows(cfg, w, w);
    var n := w.(disk := RecoverReserved(w.disk, id, writes));
    if id in w.disk.attempts && w.disk.attempts[id].disposition == Reserved {
      var q := Quarantine(w, w.disk.attempts[id].pool);
      SameGrows(cfg, w, q);
      if writes > 1 {
        AttemptWriteGrows(cfg, q, id, w.disk.attempts[id].(disposition := Unresolved));
        GrowsOn(cfg, w, q, n);
      }
    } else {
      assert n == w;
    }
  }

  lemma CloseOneGrows(cfg: Config, w: World, sid: string)
    ensures Grows(cfg, w, w.(disk := CloseOne(w.disk, sid)))
  {
    hide Grows;
    if sid in w.disk.sessions {
      SessionWriteGrows(cfg, w, sid, w.disk.sessions[sid].(active := false));
    } else {
      SameGrows(cfg, w, w);
      assert w.(disk := CloseOne(w.disk, sid)) == w;
    }
  }

  lemma SettledOnlyGrows(cfg: Config, w: World, id: string, cost: Option<nat>)
    ensures Grows(cfg, w, SettledOnly(w, id, cost))
  {
    hide Grows;
    var a := Crash(w).(remote := w.remote - {id});
    SameGrows(cfg, w, a);
    SettleGrows(cfg, a, id, cost);
    GrowsOn(cfg, w, a, SettledOnly(w, id, cost));
  }

  lemma AbortedForward(r: Receipt, code: string, now: nat)
    requires !Delivered(r.state)
    ensures var done := Aborted(r, code, Unconfirmed, now); ReceiptGrows(r, done) && done.cacheHit == r.cacheHit
  {
  }

  lemma HandledGrows(cfg: Config, w: World, b: World, id: string, r: Receipt)
    requires Grows(cfg, w, b) && id in b.disk.jobs
    requires ReceiptGrows(b.disk.jobs[id].receipt, r) && r.cacheHit == b.disk.jobs[id].receipt.cacheHit
    ensures Grows(cfg, w, Settling(b, id, None)) && Grows(cfg, w, WithReceipt(Settling(b, id, None), id, r))
  {
    hide Grows, ReceiptGrows, SettleAttempt, SetReceipt;
    var s := Settling(b, id, None);
    SettleGrows(cfg, b, id, None);
    GrowsOn(cfg, w, b, s);
    WriteGrows(cfg, s, id, r);
    GrowsOn(cfg, w, s, WithReceipt(s, id, r));
  }

  lemma HandlerCrashGrows(cfg: Config, w: World, id: string, code: string, writes: nat)
    requires Inv(cfg, w) && id in w.mem.tasks
    ensures id in w.disk.jobs && Grows(cfg, w, HandlerCrash(w, id, code, writes))
  {
    hide Inv, Grows, HandlerCrash, Aborted, Settling, WithReceipt, ReceiptGrows;
    TaskUndelivered(cfg, w, id);
    HandledIs(w, id, code, writes);
    var b, r := HandlerBase(w, id, writes), w.disk.jobs[id].receipt;
    SameGrows(cfg, w, b);
    AbortedForward(r, code, w.mem.now);
    HandledGrows(cfg, w, b, id, Aborted(r, code, Unconfirmed, w.mem.now));
  }

  lemma ImportGrows(cfg: Config, w: World, entries: seq<Entry>)
    ensures Grows(cfg, w, Import(w, entries))
  {
    hide Grows, Reconcile, StillReserved;
    SameGrows(cfg, w, w);
    if Reconcilable(w.disk, entries) {
      var n := w.(disk := Reconcile(w.disk, entries));
      ReconcileGrows(cfg, w, entries);
      SameGrows(cfg, n, Import(w, entries));
      GrowsOn(cfg, w, n, Import(w, entries));
    }
  }

  lemma ServeCrashGrows(cfg: Config, w: World, id: string, ep: Endpoint)
    requires Inv(cfg, w) && w.up && InState(w.disk, id, Queued)
    ensures Grows(cfg, w, ReservedOnly(w, id, ep))
  {
    hide Inv, Grows;
    ReservedGrows(cfg, w, id, ep);
    var a := w.(disk := Reserve(w.disk, id, ep));
    SameGrows(cfg, a, ReservedOnly(w, id, ep));
    GrowsOn(cfg, w, a, ReservedOnly(w, id, ep));
  }
}
