/** Recovery after a crash, whole or itself cut short, and the crashes that leave a stretch half written. */
module RecoverSteps {
  import opened Basics
  import opened Contracts
  import opened Scheduling
  import opened Ledger
  import opened Coordinator
  import opened Invariant
  import opened Steps
  import opened TaskSteps
  import opened WorldSteps

  // ---- booting ----

  function RecoveredAttempt(v: View): Option<Attempt> {
    if v.attempt.None? then None
    else if v.receipt.state == Running then Some(SettleAttempt(v.attempt.value, None))
    else if v.attempt.value.disposition == Reserved then Some(v.attempt.value.(disposition := Unresolved))
    else v.attempt
  }

  lemma RecoverLocal(cfg: Config, id: string, v: View, q: set<string>, r: set<string>)
    requires Local(cfg, false, id, v, q) && q <= r
    requires v.attempt.Some? && (v.receipt.state == Running || v.attempt.value.disposition == Reserved) ==>
              v.attempt.value.pool in r
    ensures Local(cfg, true, id, v.(receipt := RecoverReceipt(v.receipt), attempt := RecoveredAttempt(v)), r)
  {
  }

  lemma BootView(cfg: Config, w: World, clockId: string, now: nat, id: string)
    requires Locals(cfg, w) && !w.up && w.mem == NO_MEM && id in w.disk.jobs
    ensures var n := Boot(w, clockId, now);
            Local(cfg, true, id, ViewOf(n, id), Cover(n))
  {
    hide Local;
    var n, v := Boot(w, clockId, now), ViewOf(w, id);
    LocalOf(cfg, w, id);
    assert ViewOf(n, id) == v.(receipt := RecoverReceipt(v.receipt), attempt := RecoveredAttempt(v));
    RecoverLocal(cfg, id, v, Cover(w), Cover(n));
  }

  lemma BootCharges(d: Disk)
    requires Solvent(d)
    ensures Solvent(Recover(d))
  {
    hide Solvent;
    var e := Recover(d);
    forall j | j in d.attempts ensures Charge(e, j) <= Charge(d, j) {
      assert WasRunning(e, j) ==> WasRunning(d, j);
    }
    assert e.attempts.Keys == d.attempts.Keys;
    SolventKept(d, e);
  }

  lemma BootTables(d: Disk)
    requires OrderOk(d) && SessionsOk(d)
    ensures OrderOk(Recover(d)) && SessionsOk(Recover(d))
  {
  }

  lemma BootGraph(d: Disk)
    requires Graph(d) && Progress(d)
    ensures Graph(Recover(d)) && Progress(Recover(d))
  {
    var e := Recover(d);
    forall id, dep | id in e.jobs && dep in e.jobs[id].job.dependencies ensures EdgeOk(e, id, dep) {
      assert EdgeOk(d, id, dep);
    }
    forall id | id in e.jobs && (id in e.attempts || e.jobs[id].receipt.prediction.Some?) ensures Fed(e, id) {
      assert Fed(d, id);
    }
  }

  /** After recovery nothing is queued, so the queue and its slots start empty. */
  lemma BootQueue(cfg: Config, w: World, clockId: string, now: nat)
    ensures var n := Boot(w, clockId, now);
            UseOk(cfg, n.mem) && CacheOk(cfg, n) && SlotOrder(n.disk) && |QueuedSet(n.disk)| <= cfg.maxQueue
  {
    var n := Boot(w, clockId, now);
    assert QueuedSet(n.disk) == {};
    forall p ensures TasksOn(n.mem.tasks, p) == {} { }
    forall p ensures TasksAt(n.mem.tasks, p) == {} { }
  }

  lemma BootLocals(cfg: Config, w: World, clockId: string, now: nat)
    requires Locals(cfg, w) && !w.up && w.mem == NO_MEM
    ensures Locals(cfg, Boot(w, clockId, now))
  {
    hide Local;
    var n := Boot(w, clockId, now);
    forall id | id in n.disk.jobs ensures Local(cfg, n.up, id, ViewOf(n, id), Cover(n)) {
      BootView(cfg, w, clockId, now, id);
    }
  }

  lemma BootSeats(cfg: Config, w: World, clockId: string, now: nat)
    requires Seats(cfg, w) && Owned(w)
    ensures Seats(cfg, Boot(w, clockId, now)) && Owned(Boot(w, clockId, now))
  {
    hide Seats;
    SeatsShrink(cfg, w, Boot(w, clockId, now));
  }

  lemma BootKeeps(cfg: Config, w: World, clockId: string, now: nat)
    requires Inv(cfg, w) && !w.up
    ensures Inv(cfg, Boot(w, clockId, now))
  {
    hide Solvent, CacheOk, SlotOrder, Locals, Seats, OrderOk, Graph, Progress, SessionsOk, UseOk, Recover;
    BootLocals(cfg, w, clockId, now);
    BootCharges(w.disk);
    BootTables(w.disk);
    BootGraph(w.disk);
    BootQueue(cfg, w, clockId, now);
    BootSeats(cfg, w, clockId, now);
  }

  // ---- quarantine ----

  function Quarantine(w: World, pool: string): World { w.(disk := w.disk.(quarantined := w.disk.quarantined + {pool})) }

  lemma QuarantineLocals(cfg: Config, w: World, pool: string)
    requires Locals(cfg, w)
    ensures Locals(cfg, Quarantine(w, pool))
  {
    hide Local;
    var n := Quarantine(w, pool);
    forall id | id in n.disk.jobs ensures Local(cfg, n.up, id, ViewOf(n, id), Cover(n)) {
      LocalOf(cfg, w, id);
      assert ViewOf(n, id) == ViewOf(w, id);
      LocalWiden(cfg, w.up, id, ViewOf(w, id), Cover(w), Cover(n));
    }
  }

  lemma QuarantineSolvent(w: World, pool: string)
    requires Solvent(w.disk)
    ensures Solvent(Quarantine(w, pool).disk)
  {
    var n := Quarantine(w, pool);
    forall j | j in w.disk.attempts ensures Charge(n.disk, j) == Charge(w.disk, j) { }
    SolventKept(w.disk, n.disk);
  }

  lemma QuarantineQueue(cfg: Config, w: World, pool: string)
    requires CacheOk(cfg, w) && SlotOrder(w.disk) && |QueuedSet(w.disk)| <= cfg.maxQueue
    ensures CacheOk(cfg, Quarantine(w, pool)) && SlotOrder(Quarantine(w, pool).disk)
    ensures |QueuedSet(Quarantine(w, pool).disk)| <= cfg.maxQueue
  {
    var n := Quarantine(w, pool);
    assert QueuedSet(n.disk) == QueuedSet(w.disk);
    forall item | item in n.mem.cache ensures exists x :: Source(cfg, n, item, x) {
      var x :| Source(cfg, w, item, x);
      assert Source(cfg, n, item, x);
    }
    forall id ensures InState(n.disk, id, Queued) <==> InState(w.disk, id, Queued) { }
  }

  lemma QuarantineKeeps(cfg: Config, w: World, pool: string)
    requires Inv(cfg, w)
    ensures Inv(cfg, Quarantine(w, pool))
  {
    hide Solvent, CacheOk, SlotOrder, Locals, Seats, OrderOk, Graph, Progress, SessionsOk, UseOk;
    QuarantineLocals(cfg, w, pool);
    SameTablesKeep(w, Quarantine(w, pool));
    SeatsShrink(cfg, w, Quarantine(w, pool));
    QuarantineSolvent(w, pool);
    if w.up { QuarantineQueue(cfg, w, pool); }
  }

  // ---- recovery cut short ----

  /** The first `writes` writes of `recover` for one pending job: receipt, quarantine, unsettled attempt. */
  function RecoverJob(d: Disk, id: string, writes: nat): Disk {
    if !(id in d.jobs && Pending(StateOf(d, id))) then d else
    var d1 := SetReceipt(d, id, RecoverReceipt(d.jobs[id].receipt));
    if !(WasRunning(d, id) && id in d.attempts) || writes <= 1 then d1 else
    var d2 := d1.(quarantined := d1.quarantined + {d.attempts[id].pool});
    if writes == 2 then d2 else Settle(d2, id, None)
  }

  /** The first `writes` writes for one attempt still reserved: quarantine, disposition. */
  function RecoverReserved(d: Disk, id: string, writes: nat): Disk {
    if !(id in d.attempts && d.attempts[id].disposition == Reserved) then d else
    var d1 := d.(quarantined := d.quarantined + {d.attempts[id].pool});
    if writes <= 1 then d1 else d1.(attempts := d1.attempts[id := d1.attempts[id].(disposition := Unresolved)])
  }

  function CloseOne(d: Disk, sid: string): Disk {
    if sid in d.sessions then d.(sessions := d.sessions[sid := d.sessions[sid].(active := false)]) else d
  }

  function Unsettling(w: World, id: string): World
    requires id in w.disk.attempts
  {
    w.(disk := w.disk.(attempts := w.disk.attempts[id := SettleAttempt(w.disk.attempts[id], None)]))
  }

  lemma UnsettleTouches(w: World, id: string)
    requires id in w.disk.attempts && id in w.disk.jobs
    ensures Touches(w, Unsettling(w, id), id)
    ensures ViewOf(Unsettling(w, id), id) == ViewOf(w, id).(attempt := Some(SettleAttempt(w.disk.attempts[id], None)))
  {
  }

  lemma UnsettleLocal(cfg: Config, id: string, v: View, q: set<string>)
    requires Local(cfg, false, id, v, q) && v.attempt.Some? && v.attempt.value.pool in q
    ensures Local(cfg, false, id, v.(attempt := Some(SettleAttempt(v.attempt.value, None))), q)
  {
  }

  /** Un-settling counts the attempt at its quote, as it already did if it was running or unsettled. */
  lemma UnsettleRest(cfg: Config, w: World, id: string)
    requires Owned(w) && Seats(cfg, w) && Solvent(w.disk) && id in w.disk.attempts && id in w.disk.jobs
    requires WasRunning(w.disk, id) || w.disk.attempts[id].actual.None?
    ensures Owned(Unsettling(w, id)) && Seats(cfg, Unsettling(w, id)) && Solvent(Unsettling(w, id).disk)
  {
    hide Touches, Seats, Solvent;
    UnsettleTouches(w, id);
    SeatsKept(cfg, w, Unsettling(w, id), id);
    SolventAfter(w, Unsettling(w, id), id);
  }

  lemma UnsettleKeeps(cfg: Config, w: World, id: string)
    requires Inv(cfg, w) && !w.up && id in w.disk.attempts && w.disk.attempts[id].pool in w.disk.quarantined
    requires WasRunning(w.disk, id) || w.disk.attempts[id].actual.None?
    ensures Inv(cfg, Unsettling(w, id))
  {
    hide Solvent, CacheOk, SlotOrder, Locals, Local, Seats, OrderOk, Graph, Progress, SessionsOk, UseOk, Touches, Fed;
    AttemptFed(cfg, w, id);
    InvLocal(cfg, w, id);
    UnsettleTouches(w, id);
    UnsettleLocal(cfg, id, ViewOf(w, id), Cover(w));
    UnsettleRest(cfg, w, id);
    OneJob(cfg, w, Unsettling(w, id), id);
  }

  lemma RecoverJobKeeps(cfg: Config, w: World, id: string, writes: nat)
    requires Inv(cfg, w) && !w.up
    ensures Inv(cfg, w.(disk := RecoverJob(w.disk, id, writes)))
  {
    hide Inv;
    var n := w.(disk := RecoverJob(w.disk, id, writes));
    if id in w.disk.jobs && Pending(StateOf(w.disk, id)) {
      var state := if StateOf(w.disk, id) == Running then Unknown else Cancelled;
      if WasRunning(w.disk, id) && id in w.disk.attempts && writes > 1 {
        var q := Quarantine(w, w.disk.attempts[id].pool);
        QuarantineKeeps(cfg, w, w.disk.attempts[id].pool);
        if writes == 2 {
          DeadenKeeps(cfg, q, id, state, CoordinatorRestart);
        } else {
          UnsettleKeeps(cfg, q, id);
          DeadenKeeps(cfg, Unsettling(q, id), id, state, CoordinatorRestart);
        }
      } else {
        DeadenKeeps(cfg, w, id, state, CoordinatorRestart);
      }
    } else {
      assert n == w;
    }
  }

  lemma ReservedUnpriced(cfg: Config, w: World, id: string)
    requires Inv(cfg, w) && id in w.disk.attempts && w.disk.attempts[id].disposition == Reserved
    ensures w.disk.attempts[id].actual.None?
  {
    AttemptFed(cfg, w, id);
    hide Inv;
    InvLocal(cfg, w, id);
    assert ViewOf(w, id).attempt == Some(w.disk.attempts[id]);
  }

  lemma RecoverReservedKeeps(cfg: Config, w: World, id: string, writes: nat)
    requires Inv(cfg, w) && !w.up
    ensures Inv(cfg, w.(disk := RecoverReserved(w.disk, id, writes)))
  {
    hide Inv;
    if id in w.disk.attempts && w.disk.attempts[id].disposition == Reserved {
      ReservedUnpriced(cfg, w, id);
      var q := Quarantine(w, w.disk.attempts[id].pool);
      QuarantineKeeps(cfg, w, w.disk.attempts[id].pool);
      if writes > 1 { UnsettleKeeps(cfg, q, id); }
    } else {
      assert w.(disk := RecoverReserved(w.disk, id, writes)) == w;
    }
  }

  lemma CloseOneKeeps(cfg: Config, w: World, sid: string)
    requires Inv(cfg, w)
    ensures Inv(cfg, w.(disk := CloseOne(w.disk, sid)))
  {
    hide Inv;
    SessionIds(cfg, w);
    if sid in w.disk.sessions {
      PutSessionKeeps(cfg, w, w.disk.sessions[sid].(active := false));
    } else {
      assert w.(disk := CloseOne(w.disk, sid)) == w;
    }
  }

  // ---- crashes inside a stretch ----

  /** `tick` dies between `reserve` and the running receipt. */
  function ReservedOnly(w: World, id: string, ep: Endpoint): World {
    Crash(w).(disk := Reserve(w.disk, id, ep))
  }

  lemma ReservedTouches(w: World, id: string, ep: Endpoint)
    requires id in w.disk.jobs
    ensures Touches(Crash(w), ReservedOnly(w, id, ep), id)
    ensures ViewOf(ReservedOnly(w, id, ep), id)
            == ViewOf(Crash(w), id).(attempt := Some(Attempt(ep.pool, ep.id, ep.reserve, None, Reserved)))
  {
  }

  lemma ReservedLocal(cfg: Config, id: string, v: View, q: set<string>, ep: Endpoint)
    requires Local(cfg, false, id, v, q) && v.attempt.None?
    ensures Local(cfg, false, id, v.(attempt := Some(Attempt(ep.pool, ep.id, ep.reserve, None, Reserved))), q)
  {
  }

  lemma ReservedRest(cfg: Config, w: World, id: string, ep: Endpoint)
    requires Owned(w) && Seats(cfg, Crash(w)) && id in w.disk.jobs && id !in w.remote
    ensures Owned(ReservedOnly(w, id, ep)) && Seats(cfg, ReservedOnly(w, id, ep))
  {
    hide Seats, Touches;
    ReservedTouches(w, id, ep);
    SeatsKept(cfg, Crash(w), ReservedOnly(w, id, ep), id);
  }

  lemma QueuedUncalled(cfg: Config, w: World, id: string)
    requires Inv(cfg, w) && w.up && InState(w.disk, id, Queued)
    ensures id !in w.disk.attempts && id !in w.remote && ViewOf(Crash(w), id).attempt.None?
    ensures Owned(w) && RunningUnsettled(w.disk) && Solvent(w.disk)
  {
    hide Inv, Solvent, Locals, Owned, Local, RunningUnsettled;
    HoldingsOfInv(cfg, w);
    InvLocal(cfg, w, id);
    QueuedView(cfg, id, ViewOf(w, id), Cover(w));
    UpUnsettled(cfg, w);
  }

  lemma HoldingsOfInv(cfg: Config, w: World)
    requires Inv(cfg, w)
    ensures Owned(w) && Locals(cfg, w) && Solvent(w.disk)
  {
  }

  lemma QueuedView(cfg: Config, id: string, v: View, q: set<string>)
    requires Local(cfg, true, id, v, q) && v.receipt.state == Queued
    ensures v.attempt.None? && v.remote.None?
  {
  }

  lemma ServeCrashKeeps(cfg: Config, w: World, id: string, ep: Endpoint)
    requires Inv(cfg, w) && w.up && Servable(w, id) && CanReserve(w.disk, ep.reserve)
    ensures Inv(cfg, ReservedOnly(w, id, ep))
  {
    hide Solvent, CacheOk, SlotOrder, Locals, Local, Seats, OrderOk, Graph, Progress, SessionsOk, UseOk, Touches,
         Fed, CanReserve;
    CrashKeeps(cfg, w);
    QueuedUncalled(cfg, w, id);
    DoneIsFed(cfg, w, id);
    InvLocal(cfg, Crash(w), id);
    ReservedTouches(w, id, ep);
    ReservedLocal(cfg, id, ViewOf(Crash(w), id), Cover(w), ep);
    ReserveSolvent(w.disk, id, ep);
    ReservedRest(cfg, w, id, ep);
    OneJob(cfg, Crash(w), ReservedOnly(w, id, ep), id);
  }

  /** A stretch of `_run` dies between settling the attempt and writing the receipt; `over` says that
      the remote call is known to have ended. */
  function SettledOnly(w: World, id: string, cost: Option<nat>): World {
    Settling(Crash(w).(remote := w.remote - {id}), id, cost)
  }

  function Hushed(w: World, id: string): World { w.(remote := w.remote - {id}) }

  lemma HushTouches(w: World, id: string)
    requires id in w.disk.jobs
    ensures Touches(w, Hushed(w, id), id)
    ensures ViewOf(Hushed(w, id), id) == ViewOf(w, id).(remote := None)
  {
  }

  lemma HushLocal(cfg: Config, id: string, v: View, q: set<string>)
    requires Local(cfg, false, id, v, q)
    ensures Local(cfg, false, id, v.(remote := None), q)
  {
  }

  lemma HushRest(cfg: Config, w: World, id: string)
    requires Owned(w) && Seats(cfg, w) && id in w.disk.jobs
    ensures Owned(Hushed(w, id)) && Seats(cfg, Hushed(w, id))
  {
    hide Seats, Touches;
    HushTouches(w, id);
    SeatsKept(cfg, w, Hushed(w, id), id);
  }

  lemma HushKeeps(cfg: Config, w: World, id: string)
    requires Inv(cfg, w) && !w.up && id in w.disk.attempts
    ensures Inv(cfg, Hushed(w, id))
  {
    hide Solvent, CacheOk, SlotOrder, Locals, Local, Seats, OrderOk, Graph, Progress, SessionsOk, UseOk, Touches, Fed;
    AttemptFed(cfg, w, id);
    InvLocal(cfg, w, id);
    HushTouches(w, id);
    HushLocal(cfg, id, ViewOf(w, id), Cover(w));
    HushRest(cfg, w, id);
    OneJob(cfg, w, Hushed(w, id), id);
  }

  lemma TaskAttempt(cfg: Config, w: World, id: string)
    requires Inv(cfg, w) && id in w.mem.tasks
    ensures w.up && id in w.disk.jobs && id in w.disk.attempts && w.disk.attempts[id].actual.None?
  {
    InvLocal(cfg, w, id);
  }

  lemma SettledOnlyKeeps(cfg: Config, w: World, id: string, cost: Option<nat>)
    requires Inv(cfg, w) && id in w.mem.tasks
    ensures Inv(cfg, SettledOnly(w, id, cost))
  {
    hide Inv;
    TaskAttempt(cfg, w, id);
    CrashKeeps(cfg, w);
    HushKeeps(cfg, Crash(w), id);
    SettleKeeps(cfg, Hushed(Crash(w), id), id, cost);
  }

  // ---- crashes inside the failure handler ----

  /** The world the handler's writes start from: the process is gone, and the pool is covered if any
      write but the first is to be missing. */
  function HandlerBase(w: World, id: string, writes: nat): World
    requires id in w.mem.tasks
  {
    var pool := w.mem.tasks[id].endpoint.pool;
    if writes >= 3 then Quarantine(Crash(w), pool)
    else if writes >= 1 && pool !in w.disk.quarantined then Exposing(Crash(w), {pool})
    else Crash(w)
  }

  lemma HandlerBaseKeeps(cfg: Config, w: World, id: string, writes: nat)
    requires Inv(cfg, w) && id in w.mem.tasks
    ensures Inv(cfg, HandlerBase(w, id, writes)) && !HandlerBase(w, id, writes).up
    ensures writes >= 1 ==> w.mem.tasks[id].endpoint.pool in Cover(HandlerBase(w, id, writes))
  {
    hide Inv;
    CrashKeeps(cfg, w);
    QuarantineKeeps(cfg, Crash(w), w.mem.tasks[id].endpoint.pool);
    ExposeKeeps(cfg, Crash(w), {w.mem.tasks[id].endpoint.pool});
  }

  lemma AbortedLocal(cfg: Config, id: string, v: View, q: set<string>, code: string, now: nat)
    requires Local(cfg, false, id, v, q)
    ensures Local(cfg, false, id, v.(receipt := Aborted(v.receipt, code, Unconfirmed, now)), q)
  {
  }

  lemma AbortedKeeps(cfg: Config, w: World, id: string, code: string, now: nat)
    requires Inv(cfg, w) && !w.up && id in w.disk.jobs && StateOf(w.disk, id) != Consumed
    ensures Inv(cfg, WithReceipt(w, id, Aborted(w.disk.jobs[id].receipt, code, Unconfirmed, now)))
  {
    hide Inv, Local;
    InvLocal(cfg, w, id);
    AbortedLocal(cfg, id, ViewOf(w, id), Cover(w), code, now);
    WriteKeeps(cfg, w, id, Aborted(w.disk.jobs[id].receipt, code, Unconfirmed, now));
  }

  lemma HandledIs(w: World, id: string, code: string, writes: nat)
    requires id in w.mem.tasks && id in w.disk.jobs
    ensures var b := HandlerBase(w, id, writes);
            var s := Settling(b, id, None);
            HandlerCrash(w, id, code, writes)
            == if writes == 0 then b
               else if writes == 1 then s
               else WithReceipt(s, id, Aborted(w.disk.jobs[id].receipt, code, Unconfirmed, w.mem.now))
  {
    hide Aborted, SettleAttempt;
  }

  lemma TaskUndelivered(cfg: Config, w: World, id: string)
    requires Inv(cfg, w) && id in w.mem.tasks
    ensures id in w.disk.jobs && id in w.disk.attempts && w.disk.attempts[id].actual.None?
    ensures w.disk.attempts[id].pool == w.mem.tasks[id].endpoint.pool
    ensures !Delivered(StateOf(w.disk, id)) && (id in w.remote ==> w.remote[id] == w.mem.tasks[id].endpoint.pool)
  {
    hide Inv;
    TaskAttempt(cfg, w, id);
    InvLocal(cfg, w, id);
  }

  lemma HandlerCrashKeeps(cfg: Config, w: World, id: string, code: string, writes: nat)
    requires Inv(cfg, w) && id in w.mem.tasks
    ensures id in w.disk.jobs && Inv(cfg, HandlerCrash(w, id, code, writes))
  {
    hide Inv, Cover, HandlerCrash, Aborted;
    TaskUndelivered(cfg, w, id);
    HandlerBaseKeeps(cfg, w, id, writes);
    HandledIs(w, id, code, writes);
    var b := HandlerBase(w, id, writes);
    if writes >= 1 {
      SettleKeeps(cfg, b, id, None);
      if writes >= 2 { AbortedKeeps(cfg, Settling(b, id, None), id, code, w.mem.now); }
    }
  }
}
