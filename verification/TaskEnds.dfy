/** A task's two stretches keep the invariant: sent or withdrawn, then completed or aborted. */
module TaskEnds {
  import opened Basics
  import opened Contracts
  import opened Scheduling
  import opened Ledger
  import opened Coordinator
  import opened Invariant
  import opened Steps
  import Cache

  /** A task in flight, seen from its job. */
  lemma InFlight(cfg: Config, w: World, id: string)
    requires Inv(cfg, w) && id in w.mem.tasks
    ensures w.up && id in w.disk.jobs && id in w.disk.attempts && Fed(w.disk, id)
    ensures TaskOk(cfg, ViewOf(w, id), w.mem.tasks[id])
    ensures Local(cfg, true, id, ViewOf(w, id), Cover(w))
  {
    LocalOf(cfg, w, id);
  }

  // ---- sending ----

  function Sent(w: World, id: string): World
    requires id in w.mem.tasks
  {
    w.(mem := w.mem.(tasks := w.mem.tasks[id := w.mem.tasks[id].(sent := true)]),
       remote := w.remote[id := w.mem.tasks[id].endpoint.pool], calls := w.calls[id := Used(w.calls, id) + 1])
  }

  function SentView(v: View, t: Task): View {
    v.(task := Some(t.(sent := true)), remote := Some(t.endpoint.pool), calls := v.calls + 1)
  }

  lemma SentTouches(w: World, id: string)
    requires id in w.mem.tasks && id in w.disk.jobs
    ensures Touches(w, Sent(w, id), id)
    ensures ViewOf(Sent(w, id), id) == SentView(ViewOf(w, id), w.mem.tasks[id])
  {
  }

  lemma SentLocal(cfg: Config, id: string, v: View, q: set<string>)
    requires Local(cfg, true, id, v, q) && v.task.Some? && !v.task.value.sent
    ensures Local(cfg, true, id, SentView(v, v.task.value), q)
  {
  }

  lemma SentRest(cfg: Config, w: World, id: string)
    requires Owned(w) && Solvent(w.disk) && Seats(cfg, w) && UseOk(cfg, w.mem) && CacheOk(cfg, w)
    requires id in w.mem.tasks && id in w.disk.jobs
    ensures Owned(Sent(w, id)) && Solvent(Sent(w, id).disk) && Seats(cfg, Sent(w, id)) && UseOk(cfg, Sent(w, id).mem)
    ensures CacheOk(cfg, Sent(w, id))
  {
    hide Local, Solvent;
    SentTouches(w, id);
    TaskSent(cfg, w.mem, id);
    SeatsKept(cfg, w, Sent(w, id), id);
    CacheKept(cfg, w, Sent(w, id), id);
  }

  lemma SentSound(cfg: Config, w: World, id: string)
    requires Owned(w) && Solvent(w.disk) && Seats(cfg, w) && UseOk(cfg, w.mem) && CacheOk(cfg, w)
    requires id in w.mem.tasks && id in w.disk.jobs && !w.mem.tasks[id].sent && w.up && Fed(w.disk, id)
    requires Local(cfg, true, id, ViewOf(w, id), Cover(w))
    ensures Sound(cfg, w, Sent(w, id), id)
  {
    hide Solvent, Seats, UseOk, CacheOk, Touches, Local;
    SentTouches(w, id);
    SentLocal(cfg, id, ViewOf(w, id), Cover(w));
    SentRest(cfg, w, id);
  }

  lemma SentKeeps(cfg: Config, w: World, id: string)
    requires Inv(cfg, w) && id in w.mem.tasks && !w.mem.tasks[id].sent
    ensures Inv(cfg, Sent(w, id))
  {
    hide Solvent, Seats, UseOk, CacheOk, Touches, Local, Locals, Sound, Graph, Progress, OrderOk, SessionsOk;
    InFlight(cfg, w, id);
    SentSound(cfg, w, id);
    OneJob(cfg, w, Sent(w, id), id);
  }

  // ---- ending ----

  /** How a task's end is written: the attempt settled, the receipt replaced, the slot given back,
      the pool perhaps quarantined, the remote call perhaps over, a result perhaps served. */
  datatype End = End(cost: Option<nat>, receipt: Receipt, quarantine: bool, over: bool, hit: Option<Cache.Hit>)

  function Ended(w: World, id: string, e: End): World
    requires id in w.mem.tasks && id in w.disk.jobs
  {
    var d := SetReceipt(Settle(w.disk, id, e.cost), id, e.receipt);
    w.(disk := if e.quarantine then d.(quarantined := d.quarantined + {w.mem.tasks[id].endpoint.pool}) else d,
       mem := EndTask(w.mem, id),
       remote := if e.over then w.remote - {id} else w.remote,
       served := if e.hit.Some? then w.served[id := e.hit.value] else w.served)
  }

  function EndedView(v: View, e: End): View
    requires v.attempt.Some?
  {
    v.(receipt := e.receipt, attempt := Some(SettleAttempt(v.attempt.value, e.cost)), task := None,
       remote := if e.over then None else v.remote, served := if e.hit.Some? then e.hit else v.served)
  }

  /** An end that leaves the job in order: nothing pending or revived, unconfirmed calls quarantined. */
  ghost predicate EndOk(v: View, e: End) {
    && e.receipt.jobId == v.receipt.jobId && e.receipt.request == v.receipt.request
    && e.receipt.consumedBy == v.receipt.consumedBy && e.receipt.cacheHit == v.receipt.cacheHit
    && (e.receipt.state == Succeeded || Dead(e.receipt.state))
    && (e.receipt.state == Succeeded ==> v.receipt.state == Running && e.receipt.prediction.Some?)
    && (v.task.Some? && v.task.value.sent && !e.over ==> e.quarantine)
    && (e.hit.Some? ==> v.task.Some? && v.task.value.sent)
    && (e.hit.Some? ==> e.receipt.prediction == Some(e.hit.value.payload) && e.receipt.computed == Some(e.hit.value.computed))
  }

  /** The job has an attempt and no prediction yet, and its end revives nothing. */
  ghost predicate Ending(w: World, id: string, e: End) {
    && id in w.mem.tasks && id in w.disk.jobs && id in w.disk.attempts
    && w.disk.jobs[id].receipt.prediction.None?
    && e.receipt.state != Queued
    && (Alive(e.receipt.state) ==> Alive(StateOf(w.disk, id)))
  }

  lemma EndedTouches(w: World, id: string, e: End)
    requires Ending(w, id, e)
    ensures Touches(w, Ended(w, id, e), id)
    ensures ViewOf(Ended(w, id, e), id) == EndedView(ViewOf(w, id), e)
  {
    var n := Ended(w, id, e);
    forall x | x in w.disk.jobs && x != id ensures ViewOf(n, x) == ViewOf(w, x) && n.disk.jobs[x] == w.disk.jobs[x] { }
  }

  lemma EndedLocal(cfg: Config, id: string, v: View, q: set<string>, r: set<string>, e: End)
    requires Local(cfg, true, id, v, q) && v.task.Some? && EndOk(v, e)
    requires q <= r && (e.quarantine ==> v.task.value.endpoint.pool in r)
    ensures Local(cfg, true, id, EndedView(v, e), r)
  {
  }

  lemma EndedSolvent(w: World, id: string, e: End)
    requires Ending(w, id, e) && Owned(w) && Owned(Ended(w, id, e)) && Solvent(w.disk)
    requires w.disk.attempts[id].actual.None?
    ensures Solvent(Ended(w, id, e).disk)
  {
    hide Solvent, Touches, Owned;
    EndedTouches(w, id, e);
    SolventAfter(w, Ended(w, id, e), id);
  }

  lemma EndedSeats(cfg: Config, w: World, id: string, e: End)
    requires Ending(w, id, e) && Owned(w) && Owned(Ended(w, id, e)) && Seats(cfg, w)
    ensures Seats(cfg, Ended(w, id, e))
  {
    hide Seats, Touches, Owned;
    EndedTouches(w, id, e);
    SeatsKept(cfg, w, Ended(w, id, e), id);
  }

  lemma EndedCache(cfg: Config, w: World, id: string, e: End)
    requires Ending(w, id, e) && CacheOk(cfg, w) && (e.hit.Some? ==> id !in w.served)
    ensures CacheOk(cfg, Ended(w, id, e))
  {
    hide CacheOk, Touches;
    EndedTouches(w, id, e);
    CacheKept(cfg, w, Ended(w, id, e), id);
  }

  lemma EndedOwned(w: World, id: string, e: End)
    requires Ending(w, id, e) && Owned(w)
    ensures Owned(Ended(w, id, e))
  {
  }

  lemma EndIsEnding(cfg: Config, w: World, id: string, e: End)
    requires id in w.mem.tasks && id in w.disk.jobs
    requires TaskOk(cfg, ViewOf(w, id), w.mem.tasks[id]) && EndOk(ViewOf(w, id), e)
    requires AttemptOk(ViewOf(w, id))
    ensures Ending(w, id, e) && w.disk.attempts[id].actual.None? && id !in w.served
  {
  }

  lemma EndedSound(cfg: Config, w: World, id: string, e: End)
    requires Owned(w) && Solvent(w.disk) && Seats(cfg, w) && UseOk(cfg, w.mem) && CacheOk(cfg, w)
    requires w.up && id in w.mem.tasks && id in w.disk.jobs && Fed(w.disk, id)
    requires TaskOk(cfg, ViewOf(w, id), w.mem.tasks[id]) && EndOk(ViewOf(w, id), e)
    requires Local(cfg, true, id, ViewOf(w, id), Cover(w))
    ensures Sound(cfg, w, Ended(w, id, e), id)
  {
    hide Solvent, Seats, UseOk, CacheOk, Touches, Owned, TaskOk, EndOk, Fed;
    EndIsEnding(cfg, w, id, e);
    var n := Ended(w, id, e);
    EndedTouches(w, id, e);
    EndedLocal(cfg, id, ViewOf(w, id), Cover(w), Cover(n), e);
    EndedOwned(w, id, e);
    EndedSolvent(w, id, e);
    EndedSeats(cfg, w, id, e);
    EndedCache(cfg, w, id, e);
    TaskEnded(cfg, w.mem, id);
  }

  lemma EndedKeeps(cfg: Config, w: World, id: string, e: End)
    requires Inv(cfg, w) && id in w.mem.tasks && id in w.disk.jobs && EndOk(ViewOf(w, id), e)
    ensures Inv(cfg, Ended(w, id, e))
  {
    hide Solvent, Seats, UseOk, CacheOk, Touches, Local, Locals, Sound, Graph, Progress, OrderOk, SessionsOk;
    InFlight(cfg, w, id);
    EndedSound(cfg, w, id, e);
    OneJob(cfg, w, Ended(w, id, e), id);
  }

  // ---- the three ends ----

  function Withdrawal(w: World, id: string, reason: Reason): End
    requires id in w.disk.jobs
  {
    End(Some(0), w.disk.jobs[id].receipt.(state := Lapse(reason), reason := Some(reason)), false, false, None)
  }

  lemma BeginKeeps(cfg: Config, w: World, id: string)
    requires Inv(cfg, w)
    ensures Inv(cfg, Begin(w, id))
  {
    hide Inv, Local, TaskOk;
    if id in w.mem.tasks && !w.mem.tasks[id].sent && Has(w.disk, id) {
      var reason := ReasonNow(w, id);
      if reason.Some? {
        InFlight(cfg, w, id);
        var e := Withdrawal(w, id, reason.value);
        EndedKeeps(cfg, w, id, e);
        assert Begin(w, id) == Ended(w, id, e);
      } else {
        SentKeeps(cfg, w, id);
      }
    }
  }

  function Abortion(w: World, id: string, code: string, ending: Ending): End
    requires id in w.disk.jobs
  {
    End(if ending == NotSent then Some(0) else None, Aborted(w.disk.jobs[id].receipt, code, ending, w.mem.now),
        ending == Unconfirmed, ending != Unconfirmed, None)
  }

  lemma AbortKeeps(cfg: Config, w: World, id: string, code: string, ending: Ending)
    requires Inv(cfg, w) && id in w.mem.tasks && Has(w.disk, id)
    ensures Inv(cfg, Abort(w, id, code, ending))
  {
    hide Inv, Local;
    InFlight(cfg, w, id);
    var e := Abortion(w, id, code, ending);
    EndedKeeps(cfg, w, id, e);
    assert Abort(w, id, code, ending) == Ended(w, id, e);
  }

  function Completion(w: World, id: string, p: Prediction): End
    requires Has(w.disk, id)
  {
    var done := Completed(w.disk.jobs[id].receipt, ReasonNow(w, id), p, w.mem.now);
    End(p.usage.cost, done, false, true, if done.state == Succeeded then Some(Cache.Hit(p.payload, w.mem.now)) else None)
  }

  /** Adding a result whose source is on record. */
  lemma CachePutStep(cfg: Config, w: World, id: string, key: Option<CacheKey>, payload: string, computed: nat)
    requires Inv(cfg, w) && w.up && id in w.disk.jobs && id in w.served && w.served[id] == Cache.Hit(payload, computed)
    requires key == KeyFor(cfg, w.disk.jobs[id].job)
    ensures Inv(cfg, w.(mem := w.mem.(cache := Cache.Put(cfg.limits, w.mem.cache, key, payload, computed))))
  {
    var data := Cache.Put(cfg.limits, w.mem.cache, key, payload, computed);
    var n := w.(mem := w.mem.(cache := data));
    PutSources(cfg, w, id, key, payload, computed);
    SameViews(cfg, w, data);
  }

  lemma PutSources(cfg: Config, w: World, id: string, key: Option<CacheKey>, payload: string, computed: nat)
    requires CacheOk(cfg, w) && id in w.disk.jobs && id in w.served && w.served[id] == Cache.Hit(payload, computed)
    requires key == KeyFor(cfg, w.disk.jobs[id].job)
    ensures CacheOk(cfg, w.(mem := w.mem.(cache := Cache.Put(cfg.limits, w.mem.cache, key, payload, computed))))
  {
    Cache.PutFits(cfg.limits, w.mem.cache, key, payload, computed);
    var n := w.(mem := w.mem.(cache := Cache.Put(cfg.limits, w.mem.cache, key, payload, computed)));
    forall item | item in n.mem.cache ensures exists x :: Source(cfg, n, item, x) {
      if item in w.mem.cache {
        var x :| Source(cfg, w, item, x);
        assert Source(cfg, n, item, x);
      } else {
        assert Source(cfg, n, item, id);
      }
    }
  }

  lemma SameViews(cfg: Config, w: World, data: Cache.Items)
    requires Locals(cfg, w) && Seats(cfg, w)
    ensures Locals(cfg, w.(mem := w.mem.(cache := data))) && Seats(cfg, w.(mem := w.mem.(cache := data)))
  {
    var n := w.(mem := w.mem.(cache := data));
    forall id | id in w.disk.jobs ensures Local(cfg, n.up, id, ViewOf(n, id), Cover(n)) { LocalOf(cfg, w, id); }
    forall p | p in cfg.slots && p !in n.exposed ensures |BusyOn(n, p)| <= cfg.slots[p] { assert BusyOn(n, p) == BusyOn(w, p); }
  }

  lemma CompleteKeeps(cfg: Config, w: World, id: string, p: Prediction)
    requires Inv(cfg, w) && id in w.mem.tasks && w.mem.tasks[id].sent && Has(w.disk, id)
    ensures Inv(cfg, Complete(cfg, w, id, p))
  {
    hide Inv, Local;
    InFlight(cfg, w, id);
    var e := Completion(w, id, p);
    EndedKeeps(cfg, w, id, e);
    var n := Ended(w, id, e);
    if e.receipt.state == Succeeded {
      CachePutStep(cfg, n, id, w.mem.tasks[id].key, p.payload, w.mem.now);
    }
  }

  lemma FinishKeeps(cfg: Config, w: World, id: string, outcome: Outcome)
    requires Inv(cfg, w)
    ensures Inv(cfg, Finish(cfg, w, id, outcome))
  {
    hide Inv;
    if id in w.mem.tasks && w.mem.tasks[id].sent && Has(w.disk, id) {
      match Checked(w.disk.jobs[id].receipt, outcome, w.mem.now)
      case Returned(p) => CompleteKeeps(cfg, w, id, p);
      case Raised(code, ending) => AbortKeeps(cfg, w, id, code, ending);
    }
  }
}
