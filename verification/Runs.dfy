/** Whole runs: any interleaving of calls, task stretches, clock advances, crashes, restarts (whole or
    cut short), reconciliations, budget extensions and operator releases. */
module Runs {
  import opened Basics
  import opened Contracts
  import opened Scheduling
  import opened Ledger
  import opened Coordinator
  import opened Invariant
  import opened Steps
  import opened TaskSteps
  import opened TaskEnds
  import opened WorldSteps
  import opened SubmitSteps
  import opened RecoverSteps
  import opened Growth
  import opened GrowthSteps

  datatype Step =
    | OpenStep(sid: string, task: string)
    | AdvanceStep(sid: string, expected: nat, task: string, close: bool)
    | HeartbeatStep(sid: string, expected: nat, buffer: Option<nat>)
    | SubmitStep(job: Job)
    | ExpireStep(id: string)
    | PruneStep(id: string)
    | ServeStep(id: string)
    | BeginStep(id: string)
    | FinishStep(id: string, outcome: Outcome)
    | CancelStep(id: string)
    | ConsumeStep(id: string, who: string)
    | CloseStep
    | ShutStep(id: string)
    | ClockStep(now: nat)
    | CrashStep
    | SubmitCrash(job: Job, replaced: nat)
    | ServeCrash(id: string)
    | BeginCrash(id: string)
    | FinishCrash(id: string, outcome: Outcome, writes: nat)
    | RestartStep(clockId: string, now: nat)
    | RecoverJobStep(id: string, writes: nat)
    | RecoverReservedStep(id: string, writes: nat)
    | CloseSessionStep(sid: string)
    | ReconcileStep(entries: seq<Entry>)
    | ReleaseStep(pool: string)
    | ExtendStep(maxAttempts: nat, maxMicrousd: nat, approval: string)

  /** Steps only a running coordinator takes. */
  predicate Live(s: Step) {
    || s.OpenStep? || s.AdvanceStep? || s.HeartbeatStep? || s.SubmitStep? || s.ExpireStep? || s.PruneStep? || s.ServeStep?
    || s.BeginStep? || s.FinishStep? || s.CancelStep? || s.ConsumeStep? || s.CloseStep? || s.ShutStep? || s.ClockStep?
    || Fatal(s)
  }

  /** Steps that leave a stretch half written. */
  predicate Fatal(s: Step) {
    s.CrashStep? || s.SubmitCrash? || s.ServeCrash? || s.BeginCrash? || s.FinishCrash?
  }

  /** Steps that need the database lock, which a running coordinator holds. */
  predicate Offline(s: Step) {
    s.RestartStep? || s.RecoverJobStep? || s.RecoverReservedStep? || s.CloseSessionStep? || s.ReconcileStep?
  }

  /** `_run` dies after `writes` of its commits: the attempt, then the receipt, then for an unconfirmed
      call the quarantine. */
  function FinishCut(cfg: Config, w: World, id: string, outcome: Outcome, writes: nat): World {
    if !(id in w.mem.tasks && w.mem.tasks[id].sent && id in w.disk.jobs) || writes == 0 then Crash(w) else
    var checked := Checked(w.disk.jobs[id].receipt, outcome, w.mem.now);
    if checked.Raised? && checked.ending == Unconfirmed then HandlerCrash(w, id, checked.code, writes)
    else if writes >= 2 then Crash(Finish(cfg, w, id, outcome))
    else
      match checked
      case Returned(p) => SettledOnly(w, id, p.usage.cost)
      case Raised(_, ending) => SettledOnly(w, id, if ending == NotSent then Some(0) else None)
  }

  function BeginCut(w: World, id: string): World {
    if id in w.mem.tasks && !w.mem.tasks[id].sent && Has(w.disk, id) && ReasonNow(w, id).Some?
    then SettledOnly(w, id, Some(0)) else Crash(w)
  }

  /** `tick` dies between `reserve` and the running receipt. */
  ghost function ServeCut(cfg: Config, w: World, id: string): World
    requires cfg.Valid()
  {
    if Servable(w, id) && Place(cfg, w, id).Chosen? && CanReserve(w.disk, Place(cfg, w, id).endpoint.reserve)
    then ReservedOnly(w, id, Place(cfg, w, id).endpoint) else Crash(w)
  }

  /** `submit` dies after inserting the row and making `replaced` of the replacements. */
  function SubmitCut(cfg: Config, w: World, job: Job, replaced: nat): World {
    if Refusal(cfg, w, job).Some? || job.id in w.disk.jobs || job.sessionId !in w.disk.sessions then Crash(w) else
    match AddObservations(w.disk.observations, job.sessionId, job.observations)
    case None => Crash(w)
    case Some(known) => Crash(Submitted(cfg, w, job, known, replaced))
  }

  ghost function ApplyLive(cfg: Config, w: World, s: Step): World
    requires cfg.Valid() && Live(s) && !Fatal(s)
  {
    match s
    case OpenStep(sid, task) => OpenSession(cfg, w, sid, task).world
    case AdvanceStep(sid, expected, task, close) => AdvanceSession(w, sid, expected, task, close).world
    case HeartbeatStep(sid, expected, buffer) => Heartbeat(w, sid, expected, buffer).world
    case SubmitStep(job) => Submit(cfg, w, job).world
    case ExpireStep(id) => Expire(w, id)
    case PruneStep(id) => Prune(w, id)
    case ServeStep(id) => Serve(cfg, w, id)
    case BeginStep(id) => Begin(w, id)
    case FinishStep(id, outcome) => Finish(cfg, w, id, outcome)
    case CancelStep(id) => Cancel(w, id).world
    case ConsumeStep(id, who) => Consume(w, id, who).world
    case CloseStep => w.(mem := w.mem.(closed := true))
    case ShutStep(id) => ShutOne(w, id)
    case ClockStep(now) => if w.mem.now <= now then w.(mem := w.mem.(now := now)) else w
  }

  ghost function ApplyFatal(cfg: Config, w: World, s: Step): World
    requires cfg.Valid() && Fatal(s)
  {
    match s
    case CrashStep => Crash(w)
    case SubmitCrash(job, replaced) => SubmitCut(cfg, w, job, replaced)
    case ServeCrash(id) => ServeCut(cfg, w, id)
    case BeginCrash(id) => BeginCut(w, id)
    case FinishCrash(id, outcome, writes) => FinishCut(cfg, w, id, outcome, writes)
  }

  function ApplyOffline(w: World, s: Step): World
    requires Offline(s)
  {
    match s
    case RestartStep(clockId, now) => Boot(w, clockId, now)
    case RecoverJobStep(id, writes) => w.(disk := RecoverJob(w.disk, id, writes))
    case RecoverReservedStep(id, writes) => w.(disk := RecoverReserved(w.disk, id, writes))
    case CloseSessionStep(sid) => w.(disk := CloseOne(w.disk, sid))
    case ReconcileStep(entries) => Import(w, entries)
  }

  function ApplyOperator(w: World, s: Step): World
    requires s.ReleaseStep? || s.ExtendStep?
  {
    match s
    case ReleaseStep(pool) => Release(w, pool)
    case ExtendStep(attempts, money, approval) =>
      match Extend(w.disk, attempts, money, approval) {
        case Ok(d) => w.(disk := d)
        case Err(_) => w
      }
  }

  /** One step; a step the state does not allow changes nothing. */
  ghost function Apply(cfg: Config, w: World, s: Step): World
    requires cfg.Valid()
  {
    if Live(s) then (if !w.up then w else if Fatal(s) then ApplyFatal(cfg, w, s) else ApplyLive(cfg, w, s))
    else if Offline(s) then (if w.up then w else ApplyOffline(w, s))
    else ApplyOperator(w, s)
  }

  ghost function Exec(cfg: Config, w: World, steps: seq<Step>): World
    requires cfg.Valid()
    decreases |steps|
  {
    if steps == [] then w else Exec(cfg, Apply(cfg, w, steps[0]), steps[1..])
  }

  /** A fresh database and no coordinator yet. */
  function Start(maxAttempts: nat, maxMicrousd: nat): World {
    World(EmptyDisk(maxAttempts, maxMicrousd), false, NO_MEM, map[], map[], map[], {})
  }

  // ---- one step ----

  lemma LiveKeeps(cfg: Config, w: World, s: Step)
    requires cfg.Valid() && Inv(cfg, w) && w.up && Live(s) && !Fatal(s)
    ensures Inv(cfg, ApplyLive(cfg, w, s))
  {
    hide Inv, Serve, Submit, Finish, Begin, Expire, Prune, Cancel, Consume, ShutOne, OpenSession, AdvanceSession, Heartbeat;
    match s
    case OpenStep(sid, task) => OpenKeeps(cfg, w, sid, task);
    case AdvanceStep(sid, expected, task, close) => AdvanceKeeps(cfg, w, sid, expected, task, close);
    case HeartbeatStep(sid, expected, buffer) => HeartbeatKeeps(cfg, w, sid, expected, buffer);
    case SubmitStep(job) => SubmitKeeps(cfg, w, job);
    case ExpireStep(id) => ExpireKeeps(cfg, w, id);
    case PruneStep(id) => PruneKeeps(cfg, w, id);
    case ServeStep(id) => ServeKeeps(cfg, w, id);
    case BeginStep(id) => BeginKeeps(cfg, w, id);
    case FinishStep(id, outcome) => FinishKeeps(cfg, w, id, outcome);
    case CancelStep(id) => CancelKeeps(cfg, w, id);
    case ConsumeStep(id, who) => ConsumeKeeps(cfg, w, id, who);
    case CloseStep => ClockKeeps(cfg, w, w.mem.now, true);
    case ShutStep(id) => ShutOneKeeps(cfg, w, id);
    case ClockStep(now) => ClockKeeps(cfg, w, now, w.mem.closed);
  }

  lemma LiveGrows(cfg: Config, w: World, s: Step)
    requires cfg.Valid() && Inv(cfg, w) && w.up && Live(s) && !Fatal(s)
    ensures Grows(cfg, w, ApplyLive(cfg, w, s))
  {
    hide Inv, Grows, Serve, Submit, Finish, Begin, Expire, Prune, Cancel, Consume, ShutOne, OpenSession,
         AdvanceSession, Heartbeat;
    match s
    case OpenStep(sid, task) => OpenGrows(cfg, w, sid, task);
    case AdvanceStep(sid, expected, task, close) => AdvanceGrows(cfg, w, sid, expected, task, close);
    case HeartbeatStep(sid, expected, buffer) => HeartbeatGrows(cfg, w, sid, expected, buffer);
    case SubmitStep(job) => SubmitGrows(cfg, w, job);
    case ExpireStep(id) => ExpireGrows(cfg, w, id);
    case PruneStep(id) => PruneGrows(cfg, w, id);
    case ServeStep(id) => ServeGrows(cfg, w, id);
    case BeginStep(id) => BeginGrows(cfg, w, id);
    case FinishStep(id, outcome) => FinishGrows(cfg, w, id, outcome);
    case CancelStep(id) => CancelGrows(cfg, w, id);
    case ConsumeStep(id, who) => ConsumeGrows(cfg, w, id, who);
    case CloseStep => SameGrows(cfg, w, ApplyLive(cfg, w, s));
    case ShutStep(id) => ShutOneGrows(cfg, w, id);
    case ClockStep(now) => SameGrows(cfg, w, ApplyLive(cfg, w, s));
  }

  lemma ServeCutKeeps(cfg: Config, w: World, id: string)
    requires cfg.Valid() && Inv(cfg, w) && w.up
    ensures Inv(cfg, ServeCut(cfg, w, id)) && Grows(cfg, w, ServeCut(cfg, w, id))
  {
    hide Inv, Grows;
    CrashKeeps(cfg, w);
    SameGrows(cfg, w, Crash(w));
    if Servable(w, id) && Place(cfg, w, id).Chosen? && CanReserve(w.disk, Place(cfg, w, id).endpoint.reserve) {
      ServeCrashKeeps(cfg, w, id, Place(cfg, w, id).endpoint);
      ServeCrashGrows(cfg, w, id, Place(cfg, w, id).endpoint);
    }
  }

  lemma SubmitCutKeeps(cfg: Config, w: World, job: Job, replaced: nat)
    requires cfg.Valid() && Inv(cfg, w) && w.up
    ensures Inv(cfg, SubmitCut(cfg, w, job, replaced)) && Grows(cfg, w, SubmitCut(cfg, w, job, replaced))
  {
    hide Inv, Grows, Refusal;
    CrashKeeps(cfg, w);
    SameGrows(cfg, w, Crash(w));
    if Reaches(cfg, w, job) && job.sessionId in w.disk.sessions {
      var known := AddObservations(w.disk.observations, job.sessionId, job.observations);
      if known.Some? {
        SubmitCrashKeeps(cfg, w, job, known.value, replaced);
        SubmittedGrows(cfg, w, job, known.value, replaced);
        var n := Submitted(cfg, w, job, known.value, replaced);
        SameGrows(cfg, n, Crash(n));
        GrowsOn(cfg, w, n, Crash(n));
      }
    }
  }

  lemma BeginCutKeeps(cfg: Config, w: World, id: string)
    requires Inv(cfg, w)
    ensures Inv(cfg, BeginCut(w, id)) && Grows(cfg, w, BeginCut(w, id))
  {
    hide Inv, Grows;
    CrashKeeps(cfg, w);
    SameGrows(cfg, w, Crash(w));
    if BeginCut(w, id) != Crash(w) {
      SettledOnlyKeeps(cfg, w, id, Some(0));
      SettledOnlyGrows(cfg, w, id, Some(0));
    }
  }

  lemma FinishCutKeeps(cfg: Config, w: World, id: string, outcome: Outcome, writes: nat)
    requires Inv(cfg, w)
    ensures Inv(cfg, FinishCut(cfg, w, id, outcome, writes)) && Grows(cfg, w, FinishCut(cfg, w, id, outcome, writes))
  {
    hide Inv, Grows, Finish, HandlerCrash, SettledOnly;
    CrashKeeps(cfg, w);
    SameGrows(cfg, w, Crash(w));
    if id in w.mem.tasks && w.mem.tasks[id].sent && id in w.disk.jobs && writes > 0 {
      var checked := Checked(w.disk.jobs[id].receipt, outcome, w.mem.now);
      if checked.Raised? && checked.ending == Unconfirmed {
        HandlerCrashKeeps(cfg, w, id, checked.code, writes);
        HandlerCrashGrows(cfg, w, id, checked.code, writes);
      } else if writes >= 2 {
        FinishedCutKeeps(cfg, w, id, outcome);
      } else {
        var cost := if checked.Returned? then checked.prediction.usage.cost
                    else if checked.ending == NotSent then Some(0) else None;
        SettledOnlyKeeps(cfg, w, id, cost);
        SettledOnlyGrows(cfg, w, id, cost);
      }
    }
  }

  lemma FinishedCutKeeps(cfg: Config, w: World, id: string, outcome: Outcome)
    requires Inv(cfg, w)
    ensures Inv(cfg, Crash(Finish(cfg, w, id, outcome))) && Grows(cfg, w, Crash(Finish(cfg, w, id, outcome)))
  {
    hide Inv, Grows, Finish;
    var n := Finish(cfg, w, id, outcome);
    FinishKeeps(cfg, w, id, outcome);
    FinishGrows(cfg, w, id, outcome);
    CrashKeeps(cfg, n);
    SameGrows(cfg, n, Crash(n));
    GrowsOn(cfg, w, n, Crash(n));
  }

  lemma FatalKeeps(cfg: Config, w: World, s: Step)
    requires cfg.Valid() && Inv(cfg, w) && w.up && Fatal(s)
    ensures Inv(cfg, ApplyFatal(cfg, w, s)) && Grows(cfg, w, ApplyFatal(cfg, w, s))
  {
    hide Inv, Grows, ServeCut, SubmitCut, BeginCut, FinishCut;
    match s
    case CrashStep => CrashKeeps(cfg, w); SameGrows(cfg, w, Crash(w));
    case SubmitCrash(job, replaced) => SubmitCutKeeps(cfg, w, job, replaced);
    case ServeCrash(id) => ServeCutKeeps(cfg, w, id);
    case BeginCrash(id) => BeginCutKeeps(cfg, w, id);
    case FinishCrash(id, outcome, writes) => FinishCutKeeps(cfg, w, id, outcome, writes);
  }

  lemma OfflineKeeps(cfg: Config, w: World, s: Step)
    requires Inv(cfg, w) && !w.up && Offline(s)
    ensures Inv(cfg, ApplyOffline(w, s)) && Grows(cfg, w, ApplyOffline(w, s))
  {
    hide Inv, Grows, Recover, RecoverJob, RecoverReserved, CloseOne, Import;
    match s
    case RestartStep(clockId, now) =>
      BootKeeps(cfg, w, clockId, now);
      BootGrows(cfg, w, clockId, now);
    case RecoverJobStep(id, writes) =>
      RecoverJobKeeps(cfg, w, id, writes);
      RecoverJobGrows(cfg, w, id, writes);
    case RecoverReservedStep(id, writes) =>
      RecoverReservedKeeps(cfg, w, id, writes);
      RecoverReservedGrows(cfg, w, id, writes);
    case CloseSessionStep(sid) =>
      CloseOneKeeps(cfg, w, sid);
      CloseOneGrows(cfg, w, sid);
    case ReconcileStep(entries) =>
      ImportKeeps(cfg, w, entries);
      ImportGrows(cfg, w, entries);
  }

  lemma OperatorKeeps(cfg: Config, w: World, s: Step)
    requires Inv(cfg, w) && (s.ReleaseStep? || s.ExtendStep?)
    ensures Inv(cfg, ApplyOperator(w, s)) && Grows(cfg, w, ApplyOperator(w, s))
  {
    hide Inv, Grows;
    SameGrows(cfg, w, ApplyOperator(w, s));
    match s
    case ReleaseStep(pool) => ReleaseKeeps(cfg, w, pool);
    case ExtendStep(attempts, money, approval) =>
      if Extend(w.disk, attempts, money, approval).Ok? { ExtendKeeps(cfg, w, attempts, money, approval); }
  }

  lemma StepKeeps(cfg: Config, w: World, s: Step)
    requires cfg.Valid() && Inv(cfg, w)
    ensures Inv(cfg, Apply(cfg, w, s)) && Grows(cfg, w, Apply(cfg, w, s))
  {
    hide Inv, Grows, ApplyLive, ApplyFatal, ApplyOffline, ApplyOperator;
    SameGrows(cfg, w, w);
    if Live(s) {
      if w.up {
        if Fatal(s) { FatalKeeps(cfg, w, s); } else { LiveKeeps(cfg, w, s); LiveGrows(cfg, w, s); }
      }
    } else if Offline(s) {
      if !w.up { OfflineKeeps(cfg, w, s); }
    } else {
      OperatorKeeps(cfg, w, s);
    }
  }

  // ---- every run ----

  lemma {:induction false} RunKeeps(cfg: Config, w: World, steps: seq<Step>)
    requires cfg.Valid() && Inv(cfg, w)
    ensures Inv(cfg, Exec(cfg, w, steps)) && Grows(cfg, w, Exec(cfg, w, steps))
    decreases |steps|
  {
    hide Inv, Grows, Apply;
    SameGrows(cfg, w, w);
    if steps != [] {
      var n := Apply(cfg, w, steps[0]);
      StepKeeps(cfg, w, steps[0]);
      RunKeeps(cfg, n, steps[1..]);
      GrowsOn(cfg, w, n, Exec(cfg, n, steps[1..]));
    }
  }

  lemma StartKept(cfg: Config, maxAttempts: nat, maxMicrousd: nat)
    ensures Inv(cfg, Start(maxAttempts, maxMicrousd))
  {
    var w := Start(maxAttempts, maxMicrousd);
    forall p | p in cfg.slots ensures |BusyOn(w, p)| <= cfg.slots[p] { assert BusyOn(w, p) == {}; }
    assert Charges(w.disk) == map[];
  }

  /** A world some run of a fresh database leads to. */
  ghost predicate Reachable(cfg: Config, w: World)
    requires cfg.Valid()
  {
    exists attempts: nat, money: nat, steps: seq<Step> :: w == Exec(cfg, Start(attempts, money), steps)
  }

  lemma ReachableInv(cfg: Config, w: World)
    requires cfg.Valid() && Reachable(cfg, w)
    ensures Inv(cfg, w)
  {
    hide Inv, Grows, Exec;
    var attempts: nat, money: nat, steps: seq<Step> :| w == Exec(cfg, Start(attempts, money), steps);
    StartKept(cfg, attempts, money);
    RunKeeps(cfg, Start(attempts, money), steps);
  }

  // ---- runs put together ----

  lemma {:induction false} ExecAppend(cfg: Config, w: World, a: seq<Step>, b: seq<Step>)
    requires cfg.Valid()
    ensures Exec(cfg, w, a + b) == Exec(cfg, Exec(cfg, w, a), b)
    decreases |a|
  {
    hide Apply;
    if a == [] {
      assert a + b == b;
    } else {
      assert (a + b)[1..] == a[1..] + b;
      ExecAppend(cfg, Apply(cfg, w, a[0]), a[1..], b);
    }
  }

  lemma ExecOne(cfg: Config, w: World, s: Step)
    requires cfg.Valid()
    ensures Exec(cfg, w, [s]) == Apply(cfg, w, s)
  {
    hide Apply;
    assert [s][1..] == [];
  }

  lemma ExecTwo(cfg: Config, w: World, a: Step, b: Step)
    requires cfg.Valid()
    ensures Exec(cfg, w, [a, b]) == Apply(cfg, Apply(cfg, w, a), b)
  {
    hide Apply;
    assert [a, b][1..] == [b];
    ExecOne(cfg, Apply(cfg, w, a), b);
  }

  lemma ReachesOn(cfg: Config, w: World, s: Step)
    requires cfg.Valid() && Reachable(cfg, w)
    ensures Reachable(cfg, Apply(cfg, w, s))
  {
    hide Apply;
    var attempts: nat, money: nat, steps: seq<Step> :| w == Exec(cfg, Start(attempts, money), steps);
    ExecAppend(cfg, Start(attempts, money), steps, [s]);
    ExecOne(cfg, w, s);
    assert Apply(cfg, w, s) == Exec(cfg, Start(attempts, money), steps + [s]);
  }
}
