/** Evidence on record: along every run a source id of a session stands for one body of evidence. */
module Evidence {
  import opened Basics
  import opened Contracts
  import opened Ledger
  import opened Coordinator
  import opened Invariant
  import opened SubmitSteps
  import opened TaskSteps
  import opened RecoverSteps
  import opened Growth
  import opened Runs
  import opened Admission
  import Cache

  /** Every job on record is valid, and all its evidence is on record under its source ids. */
  ghost predicate Evidenced(d: Disk) {
    forall id :: id in d.jobs ==> d.jobs[id].job.Valid() && Rests(d, d.jobs[id].job)
  }

  ghost predicate Rests(d: Disk, job: Job) {
    forall o :: o in job.observations ==>
      (job.sessionId, o.id) in d.observations && d.observations[(job.sessionId, o.id)] == o.(role := Current)
  }

  /** No job added, no evidence touched. */
  predicate SameRecord(d: Disk, e: Disk) {
    && e.observations == d.observations && e.jobs.Keys == d.jobs.Keys
    && forall id :: id in d.jobs ==> e.jobs[id].job == d.jobs[id].job
  }

  lemma SameRecordKeeps(d: Disk, e: Disk)
    requires Evidenced(d) && SameRecord(d, e)
    ensures Evidenced(e)
  {
    hide Job.Valid;
    forall id | id in e.jobs ensures e.jobs[id].job.Valid() && Rests(e, e.jobs[id].job) { assert Rests(d, d.jobs[id].job); }
  }

  // ---- steps that add no job ----

  lemma SelfRecord(d: Disk)
    ensures SameRecord(d, d)
  {
  }

  lemma WriteRecord(d: Disk, e: Disk, id: string, r: Receipt)
    requires e.jobs == SetReceipt(d, id, r).jobs && e.observations == d.observations
    ensures SameRecord(d, e)
  {
  }

  lemma SetStateRecord(d: Disk, id: string, state: JobState, reason: Reason)
    ensures SameRecord(d, SetState(d, id, state, reason))
  {
  }

  lemma SettleRecord(d: Disk, e: Disk, id: string, cost: Option<nat>)
    requires SameRecord(Settle(d, id, cost), e)
    ensures SameRecord(d, e)
  {
    hide SettleAttempt;
  }

  lemma ServeRecord(cfg: Config, w: World, id: string)
    requires cfg.Valid()
    ensures SameRecord(w.disk, Serve(cfg, w, id).disk)
  {
    hide ReasonNow, DepsDone, Place, CanReserve, Cache.Get, KeyFor, SameRecord, SetState, Dispatch, Lapse, Finished;
    SelfRecord(w.disk);
    if Servable(w, id) {
      var r, reason := w.disk.jobs[id].receipt, ReasonNow(w, id);
      if reason.Some? {
        SetStateRecord(w.disk, id, Lapse(reason.value), reason.value);
      } else {
        var lookup := Cache.Get(cfg.limits, w.mem.cache, KeyFor(cfg, w.disk.jobs[id].job), w.mem.now);
        if lookup.hit.Some? {
          HitIsFinished(cfg, w, id);
          WriteRecord(w.disk, Serve(cfg, w, id).disk, id, Finished(r, lookup.hit.value, w.mem.now));
        } else {
          MissIsPlaced(cfg, w, id);
          hide Serve;
          PlacedRecord(cfg, Looked(cfg, w, id), id);
        }
      }
    }
  }

  lemma PlacedRecord(cfg: Config, w: World, id: string)
    requires cfg.Valid() && Servable(w, id)
    ensures SameRecord(w.disk, Placed(cfg, w, id).disk)
  {
    hide DepsDone, Place, CanReserve, KeyFor, SameRecord, SetState, Plus;
    SelfRecord(w.disk);
    SetStateRecord(w.disk, id, Rejected, AttemptOrCostCeiling);
    var place := Place(cfg, w, id);
    if place.Chosen? && CanReserve(w.disk, place.endpoint.reserve) && id !in w.disk.attempts {
      WriteRecord(w.disk, Placed(cfg, w, id).disk, id,
                  Coordinator.Started(w.disk.jobs[id].receipt, place.endpoint, w.mem.now));
    }
  }

  lemma CompleteRecord(cfg: Config, w: World, id: string, p: Prediction)
    requires id in w.mem.tasks && Has(w.disk, id)
    ensures SameRecord(w.disk, Complete(cfg, w, id, p).disk)
  {
    hide Completed, ReasonNow, SettleAttempt, EndTask, Cache.Put;
  }

  lemma AbortRecord(w: World, id: string, code: string, ending: Ending)
    requires id in w.mem.tasks && Has(w.disk, id)
    ensures SameRecord(w.disk, Abort(w, id, code, ending).disk)
  {
    hide Aborted, SettleAttempt, EndTask;
  }

  lemma FinishRecord(cfg: Config, w: World, id: string, outcome: Outcome)
    ensures SameRecord(w.disk, Finish(cfg, w, id, outcome).disk)
  {
    hide Complete, Abort, Checked;
    if id in w.mem.tasks && w.mem.tasks[id].sent && Has(w.disk, id) {
      match Checked(w.disk.jobs[id].receipt, outcome, w.mem.now)
      case Returned(p) => CompleteRecord(cfg, w, id, p);
      case Raised(code, ending) => AbortRecord(w, id, code, ending);
    }
  }

  lemma BeginRecord(w: World, id: string)
    ensures SameRecord(w.disk, Begin(w, id).disk)
  {
    hide ReasonNow, Lapse, SetState, Settle, EndTask, SameRecord;
    SelfRecord(w.disk);
    if id in w.mem.tasks && !w.mem.tasks[id].sent && Has(w.disk, id) && ReasonNow(w, id).Some? {
      var reason, d := ReasonNow(w, id).value, Settle(w.disk, id, Some(0));
      SetStateRecord(d, id, Lapse(reason), reason);
      SettleRecord(w.disk, Begin(w, id).disk, id, Some(0));
    }
  }

  lemma ExpireRecord(w: World, id: string)
    ensures SameRecord(w.disk, Expire(w, id).disk)
  {
    hide ReasonNow, Lapse, SetState, SameRecord;
    SelfRecord(w.disk);
    if Has(w.disk, id) && ReasonNow(w, id).Some? {
      SetStateRecord(w.disk, id, Lapse(ReasonNow(w, id).value), ReasonNow(w, id).value);
    }
  }

  lemma ScanRecord(w: World, id: string)
    ensures SameRecord(w.disk, Prune(w, id).disk) && SameRecord(w.disk, ShutOne(w, id).disk)
    ensures SameRecord(w.disk, Coordinator.Cancel(w, id).world.disk)
  {
    hide DepsAlive, SetState, SameRecord;
    SelfRecord(w.disk);
    SetStateRecord(w.disk, id, Rejected, DependencyFailed);
    SetStateRecord(w.disk, id, Cancelled, CoordinatorShutdown);
    SetStateRecord(w.disk, id, Cancelled, ConsumerCancelled);
  }

  lemma ConsumeRecord(w: World, id: string, who: string)
    ensures SameRecord(w.disk, Consume(w, id, who).world.disk)
  {
    hide ReasonNow, SameRecord;
    SelfRecord(w.disk);
    if Consume(w, id, who).world != w {
      var r := w.disk.jobs[id].receipt;
      WriteRecord(w.disk, Consume(w, id, who).world.disk, id,
                  r.(state := Consumed, consumedBy := Some(who), consumedAt := Some(w.mem.now)));
    }
  }

  lemma SessionRecord(cfg: Config, w: World, sid: string, n: nat, task: string, close: bool, buffer: Option<nat>)
    ensures SameRecord(w.disk, OpenSession(cfg, w, sid, task).world.disk)
    ensures SameRecord(w.disk, AdvanceSession(w, sid, n, task, close).world.disk)
    ensures SameRecord(w.disk, Heartbeat(w, sid, n, buffer).world.disk)
  {
  }

  lemma LiveRecord(cfg: Config, w: World, s: Step)
    requires cfg.Valid() && Live(s) && !Fatal(s) && !s.SubmitStep?
    ensures SameRecord(w.disk, ApplyLive(cfg, w, s).disk)
  {
    hide Serve, Finish, Begin, Expire, Prune, Coordinator.Cancel, Consume, ShutOne, OpenSession, AdvanceSession, Heartbeat,
         SameRecord;
    SelfRecord(w.disk);
    match s
    case OpenStep(sid, task) => SessionRecord(cfg, w, sid, 0, task, false, None);
    case AdvanceStep(sid, expected, task, close) => SessionRecord(cfg, w, sid, expected, task, close, None);
    case HeartbeatStep(sid, expected, buffer) => SessionRecord(cfg, w, sid, expected, "", false, buffer);
    case ServeStep(id) => ServeRecord(cfg, w, id);
    case BeginStep(id) => BeginRecord(w, id);
    case FinishStep(id, outcome) => FinishRecord(cfg, w, id, outcome);
    case ConsumeStep(id, who) => ConsumeRecord(w, id, who);
    case ExpireStep(id) => ExpireRecord(w, id);
    case PruneStep(id) => ScanRecord(w, id);
    case CancelStep(id) => ScanRecord(w, id);
    case ShutStep(id) => ScanRecord(w, id);
    case CloseStep =>
    case ClockStep(_) =>
  }

  lemma HandlerRecord(d: Disk, id: string, pool: string, code: string, now: nat, writes: nat)
    requires id in d.jobs
    ensures SameRecord(d, HandlerCut(d, id, pool, code, now, writes))
  {
    hide Aborted, SettleAttempt;
  }

  lemma HandlerCrashRecord(w: World, id: string, code: string, writes: nat)
    requires id in w.disk.jobs && id in w.mem.tasks
    ensures SameRecord(w.disk, HandlerCrash(w, id, code, writes).disk)
  {
    hide HandlerCut, SameRecord;
    HandlerRecord(w.disk, id, w.mem.tasks[id].endpoint.pool, code, w.mem.now, writes);
  }

  lemma SettledOnlyRecord(w: World, id: string, cost: Option<nat>)
    ensures SameRecord(w.disk, SettledOnly(w, id, cost).disk) && SameRecord(w.disk, Crash(w).disk)
  {
    hide SettleAttempt;
  }

  lemma ClosedRecord(cfg: Config, w: World, id: string, outcome: Outcome, cost: Option<nat>)
    ensures SameRecord(w.disk, Crash(Finish(cfg, w, id, outcome)).disk) && SameRecord(w.disk, SettledOnly(w, id, cost).disk)
  {
    hide Finish, SettledOnly, SameRecord;
    FinishRecord(cfg, w, id, outcome);
    SettledOnlyRecord(w, id, cost);
  }

  lemma FinishCutRecord(cfg: Config, w: World, id: string, outcome: Outcome, writes: nat)
    ensures SameRecord(w.disk, FinishCut(cfg, w, id, outcome, writes).disk)
  {
    hide Finish, HandlerCrash, SettledOnly, Crash, Checked, SameRecord;
    SettledOnlyRecord(w, id, None);
    if id in w.mem.tasks && w.mem.tasks[id].sent && id in w.disk.jobs && writes > 0 {
      match Checked(w.disk.jobs[id].receipt, outcome, w.mem.now)
      case Returned(p) =>
        ClosedRecord(cfg, w, id, outcome, p.usage.cost);
      case Raised(code, ending) =>
        if ending == Unconfirmed {
          HandlerCrashRecord(w, id, code, writes);
        } else {
          ClosedRecord(cfg, w, id, outcome, if ending == NotSent then Some(0) else None);
        }
    }
  }

  lemma FatalRecord(cfg: Config, w: World, s: Step)
    requires cfg.Valid() && Fatal(s) && !s.SubmitCrash?
    ensures SameRecord(w.disk, ApplyFatal(cfg, w, s).disk)
  {
    hide FinishCut, Place, CanReserve, ReasonNow, SettleAttempt;
    if s.FinishCrash? { FinishCutRecord(cfg, w, s.id, s.outcome, s.writes); }
  }

  lemma {:induction false} ReconcileRecord(d: Disk, entries: seq<Entry>)
    requires forall i :: 0 <= i < |entries| ==> 0 <= entries[i].actual
    ensures SameRecord(d, Reconcile(d, entries))
  {
    hide SettleAttempt;
    if entries != [] { ReconcileRecord(d, entries[..|entries| - 1]); }
  }

  lemma RecoverRecord(d: Disk, id: string, writes: nat)
    ensures SameRecord(d, Recover(d)) && SameRecord(d, CloseOne(d, id)) && SameRecord(d, RecoverReserved(d, id, writes))
  {
    hide RecoverReceipt, RecoverAttempt;
  }

  lemma RecoverJobRecord(d: Disk, id: string, writes: nat)
    ensures SameRecord(d, RecoverJob(d, id, writes))
  {
    hide RecoverReceipt, SettleAttempt;
  }

  lemma OfflineRecord(w: World, s: Step)
    requires Offline(s)
    ensures SameRecord(w.disk, ApplyOffline(w, s).disk)
  {
    hide Reconcile, StillReserved, Recover, CloseOne, RecoverReserved, RecoverJob, SameRecord;
    match s
    case RestartStep(_, _) => RecoverRecord(w.disk, "", 0);
    case RecoverJobStep(id, writes) => RecoverJobRecord(w.disk, id, writes);
    case RecoverReservedStep(id, writes) => RecoverRecord(w.disk, id, writes);
    case CloseSessionStep(sid) => RecoverRecord(w.disk, sid, 0);
    case ReconcileStep(entries) =>
      SelfRecord(w.disk);
      if Reconcilable(w.disk, entries) { ReconcileRecord(w.disk, entries); }
  }

  lemma OperatorRecord(w: World, s: Step)
    requires s.ReleaseStep? || s.ExtendStep?
    ensures SameRecord(w.disk, ApplyOperator(w, s).disk)
  {
  }

  // ---- a submission ----

  lemma AddRecord(d: Disk, job: Job, known: Observations, r: Receipt)
    requires Evidenced(d) && job.Valid() && job.id !in d.jobs && EvidenceRecorded(d, d.(observations := known), job)
    ensures Evidenced(WithRow(d, known, job, r))
  {
    hide Job.Valid;
    var e := WithRow(d, known, job, r);
    forall id | id in e.jobs ensures e.jobs[id].job.Valid() && Rests(e, e.jobs[id].job) {
      if id != job.id { assert Rests(d, d.jobs[id].job); }
    }
  }

  lemma SupersedeRecord(d: Disk, ids: seq<string>)
    ensures SameRecord(d, Supersede(d, ids))
  {
    SupersedeLeaves(d, ids);
  }

  lemma AddedRecord(d: Disk, sup: seq<string>, job: Job, known: Observations, r: Receipt)
    requires Evidenced(d) && job.Valid() && job.id !in d.jobs && EvidenceRecorded(d, d.(observations := known), job)
    ensures Evidenced(WithRow(Supersede(d, sup), known, job, r))
  {
    hide Evidenced, Supersede, Job.Valid, EvidenceRecorded, SameRecord;
    SupersedeRecord(d, sup);
    SameRecordKeeps(d, Supersede(d, sup));
    SupersedeLeaves(d, sup);
    StillRecorded(d, Supersede(d, sup), job, known);
    AddRecord(Supersede(d, sup), job, known, r);
  }

  lemma SubmittedRecord(cfg: Config, w: World, job: Job, known: Observations, upto: nat)
    requires Evidenced(w.disk) && Reaches(cfg, w, job) && job.sessionId in w.disk.sessions
    requires AddObservations(w.disk.observations, job.sessionId, job.observations) == Some(known)
    ensures Evidenced(Submitted(cfg, w, job, known, upto).disk)
  {
    hide Evidenced, Refusal, Judge, Supersede, Recordable, AddObservations, EvidenceAgrees, Job.Valid, EvidenceRecorded,
         DepsFit, WithRow;
    RefusalMeans(cfg, w, job);
    KnownEvidence(cfg, w, job);
    NewEvidence(cfg, w, job);
    ReachesFits(cfg, w, job);
    var v := Judge(cfg, w, job);
    var sup := if v.reason.Some? then [] else if upto <= |v.superseded| then v.superseded[..upto] else v.superseded;
    AddedRecord(w.disk, sup, job, known, NewReceipt(job, v.reason, w.mem.now));
  }

  lemma StillRecorded(d: Disk, e: Disk, job: Job, known: Observations)
    requires e.observations == d.observations && EvidenceRecorded(d, d.(observations := known), job)
    ensures EvidenceRecorded(e, e.(observations := known), job)
  {
  }

  lemma SubmitRecord(cfg: Config, w: World, job: Job)
    requires Inv(cfg, w) && Evidenced(w.disk)
    ensures Evidenced(Submit(cfg, w, job).world.disk)
  {
    hide Inv, Evidenced, Refusal, AddObservations, Submitted, Judge, OrderOk;
    InvOrder(cfg, w);
    if Reaches(cfg, w, job) {
      SubmitIs(cfg, w, job);
      var known := AddObservations(w.disk.observations, job.sessionId, job.observations);
      if known.Some? { SubmittedRecord(cfg, w, job, known.value, |Judge(cfg, w, job).superseded|); }
    }
  }

  lemma SubmitCutRecord(cfg: Config, w: World, job: Job, replaced: nat)
    requires Evidenced(w.disk)
    ensures Evidenced(SubmitCut(cfg, w, job, replaced).disk)
  {
    hide Evidenced, Refusal, AddObservations, Submitted;
    if Reaches(cfg, w, job) && job.sessionId in w.disk.sessions {
      var known := AddObservations(w.disk.observations, job.sessionId, job.observations);
      if known.Some? { SubmittedRecord(cfg, w, job, known.value, replaced); }
    }
  }

  // ---- runs ----

  lemma StepEvidenced(cfg: Config, w: World, s: Step)
    requires cfg.Valid() && Inv(cfg, w) && Evidenced(w.disk)
    ensures Evidenced(Apply(cfg, w, s).disk)
  {
    hide Inv, Evidenced, ApplyOffline, ApplyOperator, Submit, SubmitCut, SameRecord;
    if Live(s) && w.up {
      if s.SubmitStep? {
        SubmitRecord(cfg, w, s.job);
      } else if s.SubmitCrash? {
        SubmitCutRecord(cfg, w, s.job, s.replaced);
      } else {
        hide ApplyLive, ApplyFatal;
        if Fatal(s) { FatalRecord(cfg, w, s); } else { LiveRecord(cfg, w, s); }
        SameRecordKeeps(w.disk, Apply(cfg, w, s).disk);
      }
    } else if Offline(s) && !w.up {
      OfflineRecord(w, s);
      SameRecordKeeps(w.disk, Apply(cfg, w, s).disk);
    } else if s.ReleaseStep? || s.ExtendStep? {
      OperatorRecord(w, s);
      SameRecordKeeps(w.disk, Apply(cfg, w, s).disk);
    }
  }

  lemma {:induction false} RunEvidenced(cfg: Config, w: World, steps: seq<Step>)
    requires cfg.Valid() && Inv(cfg, w) && Evidenced(w.disk)
    ensures Evidenced(Exec(cfg, w, steps).disk)
    decreases |steps|
  {
    hide Inv, Grows, Evidenced, Apply;
    if steps != [] {
      StepKeeps(cfg, w, steps[0]);
      StepEvidenced(cfg, w, steps[0]);
      RunEvidenced(cfg, Apply(cfg, w, steps[0]), steps[1..]);
    }
  }

  lemma ReachableEvidenced(cfg: Config, w: World)
    requires cfg.Valid() && Reachable(cfg, w)
    ensures Evidenced(w.disk)
  {
    hide Inv, Grows, Exec;
    var attempts: nat, money: nat, steps: seq<Step> :| w == Exec(cfg, Start(attempts, money), steps);
    StartKept(cfg, attempts, money);
    RunEvidenced(cfg, Start(attempts, money), steps);
  }

  /** On every run two jobs of a session that name the same source id rest on the same evidence, whatever
      role it plays in each. */
  lemma OneSourceOneBody(cfg: Config, w: World, a: string, b: string, o: Observation, p: Observation)
    requires cfg.Valid() && Reachable(cfg, w) && a in w.disk.jobs && b in w.disk.jobs
    requires w.disk.jobs[a].job.sessionId == w.disk.jobs[b].job.sessionId
    requires o in w.disk.jobs[a].job.observations && p in w.disk.jobs[b].job.observations && o.id == p.id
    ensures p.(role := o.role) == o
  {
    hide Reachable, Job.Valid;
    ReachableEvidenced(cfg, w);
    assert Rests(w.disk, w.disk.jobs[a].job) && Rests(w.disk, w.disk.jobs[b].job);
    SameButRole(p, o);
  }
}
