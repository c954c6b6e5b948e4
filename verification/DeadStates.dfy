/** When a dead job's state still changes: only the check before sending relabels one. */
module DeadStates {
  import opened Basics
  import opened Contracts
  import opened Ledger
  import opened Coordinator
  import opened Invariant
  import opened SubmitSteps
  import opened Runs
  import opened Guarantees
  import opened Growth
  import opened Ticks
  import Cache

  predicate IsDead(d: Disk, id: string) { id in d.jobs && Dead(StateOf(d, id)) }

  /** The same job in the same state. */
  predicate StateKept(d: Disk, e: Disk, id: string)
    requires id in d.jobs
  {
    InState(e, id, StateOf(d, id))
  }

  /** The one step that may relabel, read before it is taken: a call not yet sent whose job is found
      unusable for a reason other than the one its state stands for. */
  predicate Relabels(w: World, s: Step, id: string)
    requires id in w.disk.jobs
  {
    && w.up && s == BeginStep(id) && id in w.mem.tasks && !w.mem.tasks[id].sent && Has(w.disk, id)
    && ReasonNow(w, id).Some? && Lapse(ReasonNow(w, id).value) != StateOf(w.disk, id)
  }

  lemma LapseKeeps(d: Disk, x: string, state: JobState, reason: Reason, id: string)
    requires id in d.jobs && x in d.jobs
    ensures StateKept(d, SetState(Settle(d, x, Some(0)), x, state, reason), id) <==> x != id || state == StateOf(d, id)
  {
    hide SettleAttempt;
  }

  lemma BeginRelabels(w: World, x: string, id: string)
    requires w.up && IsDead(w.disk, id)
    ensures StateKept(w.disk, Begin(w, x).disk, id) <==> !Relabels(w, BeginStep(x), id)
  {
    hide Job.InvalidReason, Minus, EndTask, StateKept, SetState, Settle;
    SameState(w.disk, id);
    if x in w.mem.tasks && !w.mem.tasks[x].sent && Has(w.disk, x) {
      var reason := ReasonNow(w, x);
      if reason.Some? { LapseKeeps(w.disk, x, Lapse(reason.value), reason.value, id); }
    }
  }

  lemma SetStateKeeps(d: Disk, x: string, state: JobState, reason: Reason, id: string)
    requires IsDead(d, id) && (x in d.jobs ==> !Dead(StateOf(d, x)))
    ensures StateKept(d, SetState(d, x, state, reason), id)
  {
  }

  lemma ServeLeavesDead(cfg: Config, w: World, x: string, id: string)
    requires cfg.Valid() && IsDead(w.disk, id)
    ensures StateKept(w.disk, Serve(cfg, w, x).disk, id)
  {
    hide Serve;
    ServeBeside(cfg, w, x);
  }

  /** Settling and a receipt that keeps a dead state leave every dead state. */
  lemma EndLeavesDead(d: Disk, x: string, cost: Option<nat>, r: Receipt, id: string)
    requires IsDead(d, id) && x in d.jobs && (Dead(StateOf(d, x)) ==> r.state == StateOf(d, x))
    ensures StateKept(d, SetReceipt(Settle(d, x, cost), x, r), id)
  {
    hide SettleAttempt;
  }

  lemma CompleteLeavesDead(cfg: Config, w: World, x: string, p: Prediction, id: string)
    requires IsDead(w.disk, id) && x in w.mem.tasks && Has(w.disk, x)
    ensures StateKept(w.disk, Complete(cfg, w, x, p).disk, id)
  {
    var done := Completed(w.disk.jobs[x].receipt, ReasonNow(w, x), p, w.mem.now);
    assert Dead(StateOf(w.disk, x)) ==> done.state == StateOf(w.disk, x);
    EndLeavesDead(w.disk, x, p.usage.cost, done, id);
    hide Completed, EndTask, Cache.Put, ReasonNow, StateKept, SetReceipt, Settle;
  }

  lemma AbortLeavesDead(w: World, x: string, code: string, ending: Ending, id: string)
    requires IsDead(w.disk, id) && x in w.mem.tasks && Has(w.disk, x)
    ensures StateKept(w.disk, Abort(w, x, code, ending).disk, id)
  {
    var r := Aborted(w.disk.jobs[x].receipt, code, ending, w.mem.now);
    assert Dead(StateOf(w.disk, x)) ==> r.state == StateOf(w.disk, x);
    EndLeavesDead(w.disk, x, if ending == NotSent then Some(0) else None, r, id);
    hide Aborted, EndTask, SetReceipt, Settle;
  }

  lemma FinishLeavesDead(cfg: Config, w: World, x: string, outcome: Outcome, id: string)
    requires IsDead(w.disk, id)
    ensures StateKept(w.disk, Finish(cfg, w, x, outcome).disk, id)
  {
    hide Complete, Abort, Checked;
    if x in w.mem.tasks && w.mem.tasks[x].sent && Has(w.disk, x) {
      match Checked(w.disk.jobs[x].receipt, outcome, w.mem.now)
      case Returned(p) => CompleteLeavesDead(cfg, w, x, p, id);
      case Raised(code, ending) => AbortLeavesDead(w, x, code, ending, id);
    }
  }

  lemma SubmitLeavesDead(cfg: Config, w: World, job: Job, id: string)
    requires OrderOk(w.disk) && IsDead(w.disk, id)
    ensures StateKept(w.disk, Submit(cfg, w, job).world.disk, id)
  {
    hide Refusal, Judge, Submit, DependedOn, SameSlot;
    SubmitStates(cfg, w, job, id);
    if Reaches(cfg, w, job) {
      ReachesFits(cfg, w, job);
      if id in Judge(cfg, w, job).superseded { JudgedReplaces(cfg, w, job, id); }
    }
  }

  lemma ExpireLeavesDead(w: World, x: string, id: string)
    requires IsDead(w.disk, id)
    ensures StateKept(w.disk, Expire(w, x).disk, id)
  {
    hide Job.InvalidReason, SetState, StateKept, Lapse;
    SameState(w.disk, id);
    if Has(w.disk, x) && Pending(StateOf(w.disk, x)) && ReasonNow(w, x).Some? {
      SetStateKeeps(w.disk, x, Lapse(ReasonNow(w, x).value), ReasonNow(w, x).value, id);
    }
  }

  lemma PruneLeavesDead(w: World, x: string, id: string)
    requires IsDead(w.disk, id)
    ensures StateKept(w.disk, Prune(w, x).disk, id)
  {
    hide SetState, StateKept, DepsAlive;
    SameState(w.disk, id);
    if Prune(w, x) != w { SetStateKeeps(w.disk, x, Rejected, DependencyFailed, id); }
  }

  lemma CancelLeavesDead(w: World, x: string, id: string)
    requires IsDead(w.disk, id)
    ensures StateKept(w.disk, Coordinator.Cancel(w, x).world.disk, id)
    ensures StateKept(w.disk, ShutOne(w, x).disk, id)
  {
  }

  lemma ConsumeLeavesDead(w: World, x: string, who: string, id: string)
    requires IsDead(w.disk, id)
    ensures StateKept(w.disk, Consume(w, x, who).world.disk, id)
  {
    hide Job.InvalidReason;
  }

  lemma SessionLeavesJobs(cfg: Config, w: World, s: Step)
    requires cfg.Valid() && (s.OpenStep? || s.AdvanceStep? || s.HeartbeatStep? || s.CloseStep? || s.ClockStep?)
    ensures ApplyLive(cfg, w, s).disk.jobs == w.disk.jobs
  {
  }

  lemma SessionLeavesDead(cfg: Config, w: World, s: Step, id: string)
    requires cfg.Valid() && IsDead(w.disk, id)
    requires s.OpenStep? || s.AdvanceStep? || s.HeartbeatStep? || s.CloseStep? || s.ClockStep?
    ensures StateKept(w.disk, ApplyLive(cfg, w, s).disk, id)
  {
    hide ApplyLive;
    SessionLeavesJobs(cfg, w, s);
  }

  lemma LiveLeavesDead(cfg: Config, w: World, s: Step, id: string)
    requires cfg.Valid() && w.up && OrderOk(w.disk) && IsDead(w.disk, id) && Live(s) && !Fatal(s)
    ensures StateKept(w.disk, ApplyLive(cfg, w, s).disk, id) <==> !Relabels(w, s, id)
  {
    hide Job.InvalidReason, Serve, Submit, Finish, Begin, Expire, Prune, Coordinator.Cancel, Consume, ShutOne,
         Coordinator.OpenSession, AdvanceSession, Heartbeat, OrderOk, StateKept;
    match s
    case SubmitStep(job) => SubmitLeavesDead(cfg, w, job, id);
    case ServeStep(x) => ServeLeavesDead(cfg, w, x, id);
    case BeginStep(x) => BeginRelabels(w, x, id);
    case FinishStep(x, outcome) => FinishLeavesDead(cfg, w, x, outcome, id);
    case ExpireStep(x) => ExpireLeavesDead(w, x, id);
    case PruneStep(x) => PruneLeavesDead(w, x, id);
    case CancelStep(x) => CancelLeavesDead(w, x, id);
    case ConsumeStep(x, who) => ConsumeLeavesDead(w, x, who, id);
    case ShutStep(x) => CancelLeavesDead(w, x, id);
    case _ => SessionLeavesDead(cfg, w, s, id);
  }

  lemma HandlerLeavesDead(w: World, x: string, code: string, writes: nat, id: string)
    requires IsDead(w.disk, id) && x in w.mem.tasks && x in w.disk.jobs
    ensures StateKept(w.disk, HandlerCrash(w, x, code, writes).disk, id)
  {
    var r := Aborted(w.disk.jobs[x].receipt, code, Unconfirmed, w.mem.now);
    assert Dead(StateOf(w.disk, x)) ==> r.state == StateOf(w.disk, x);
    EndLeavesDead(w.disk, x, None, r, id);
    hide Aborted, SetReceipt, SettleAttempt;
  }

  lemma AddedLeavesDead(w: World, sup: seq<string>, known: Observations, job: Job, r: Receipt, id: string)
    requires IsDead(w.disk, id) && job.id !in w.disk.jobs && forall x :: x in sup ==> InState(w.disk, x, Queued)
    ensures StateKept(w.disk, Adding(w.(disk := Supersede(w.disk, sup)), known, job, r).disk, id)
  {
    SupersedeStates(w.disk, sup, id);
    hide Supersede;
  }

  lemma SubmittedLeavesDead(cfg: Config, w: World, job: Job, known: Observations, replaced: nat, id: string)
    requires OrderOk(w.disk) && IsDead(w.disk, id) && Reaches(cfg, w, job) && job.sessionId in w.disk.sessions
    ensures StateKept(w.disk, Submitted(cfg, w, job, known, replaced).disk, id)
  {
    hide Refusal, IsDead, StateKept, Adding, OrderOk;
    PrefixOf(cfg, w, job, replaced);
    var v := Judge(cfg, w, job);
    hide Judge;
    var sup := if v.reason.Some? then [] else if replaced <= |v.superseded| then v.superseded[..replaced] else v.superseded;
    AddedLeavesDead(w, sup, known, job, NewReceipt(job, v.reason, w.mem.now), id);
  }

  lemma SubmitCutLeavesDead(cfg: Config, w: World, job: Job, replaced: nat, id: string)
    requires OrderOk(w.disk) && IsDead(w.disk, id)
    ensures StateKept(w.disk, SubmitCut(cfg, w, job, replaced).disk, id)
  {
    hide Refusal, OrderOk, Submitted;
    if Reaches(cfg, w, job) && job.sessionId in w.disk.sessions {
      var known := AddObservations(w.disk.observations, job.sessionId, job.observations);
      if known.Some? { SubmittedLeavesDead(cfg, w, job, known.value, replaced, id); }
    }
  }

  lemma FatalLeavesDead(cfg: Config, w: World, s: Step, id: string)
    requires cfg.Valid() && w.up && OrderOk(w.disk) && IsDead(w.disk, id) && Fatal(s)
    ensures StateKept(w.disk, ApplyFatal(cfg, w, s).disk, id)
  {
    hide Job.InvalidReason, OrderOk, SubmitCut, Finish, HandlerCrash, Place, CanReserve, Checked, SettleAttempt;
    if s.SubmitCrash? { SubmitCutLeavesDead(cfg, w, s.job, s.replaced, id); }
    if s.FinishCrash? {
      FinishLeavesDead(cfg, w, s.id, s.outcome, id);
      if s.id in w.mem.tasks && s.id in w.disk.jobs {
        var checked := Checked(w.disk.jobs[s.id].receipt, s.outcome, w.mem.now);
        if checked.Raised? { HandlerLeavesDead(w, s.id, checked.code, s.writes, id); }
      }
    }
  }

  lemma {:induction false} ReconcileLeavesJobs(d: Disk, entries: seq<Entry>)
    requires forall i :: 0 <= i < |entries| ==> 0 <= entries[i].actual
    ensures Reconcile(d, entries).jobs == d.jobs
  {
    if entries != [] { ReconcileLeavesJobs(d, entries[..|entries| - 1]); }
  }

  lemma OfflineLeavesDead(w: World, s: Step, id: string)
    requires IsDead(w.disk, id) && Offline(s)
    ensures StateKept(w.disk, ApplyOffline(w, s).disk, id)
  {
    hide SettleAttempt, Reconcile, StillReserved;
    if s.ReconcileStep? && Reconcilable(w.disk, s.entries) { ReconcileLeavesJobs(w.disk, s.entries); }
  }

  /** On every run a step changes the state of a dead job exactly when it is the check before sending that
      job's call, and finds it unusable for a reason other than the one its state stands for. */
  lemma DeadStateChangesIff(cfg: Config, w: World, s: Step, id: string)
    requires cfg.Valid() && Reachable(cfg, w) && IsDead(w.disk, id)
    ensures StateKept(w.disk, Apply(cfg, w, s).disk, id) <==> !Relabels(w, s, id)
    ensures IsDead(Apply(cfg, w, s).disk, id)
  {
    hide Inv, Reachable, ApplyLive, ApplyFatal, ApplyOffline, StateKept, ReasonNow, Grows;
    ReachableInv(cfg, w);
    InvOrder(cfg, w);
    StepKeeps(cfg, w, s);
    DeadGrows(cfg, w, Apply(cfg, w, s), id);
    hide OrderOk;
    if Live(s) {
      if w.up {
        if Fatal(s) { FatalLeavesDead(cfg, w, s, id); } else { LiveLeavesDead(cfg, w, s, id); }
      } else {
        SameState(w.disk, id);
      }
    } else if Offline(s) {
      SameState(w.disk, id);
      OfflineLeavesDead(w, s, id);
    } else {
      SameState(w.disk, id);
      OperatorLeavesDead(w, s, id);
    }
  }

  lemma SameState(d: Disk, id: string)
    requires id in d.jobs
    ensures StateKept(d, d, id)
  {
  }

  lemma OperatorLeavesDead(w: World, s: Step, id: string)
    requires id in w.disk.jobs && (s.ReleaseStep? || s.ExtendStep?)
    ensures StateKept(w.disk, ApplyOperator(w, s).disk, id)
  {
  }

  lemma DeadGrows(cfg: Config, w: World, n: World, id: string)
    requires Grows(cfg, w, n) && IsDead(w.disk, id)
    ensures IsDead(n.disk, id)
  {
    hide AttemptsGrow, SessionsGrow, HistoryGrows, HitsGrow;
    assert RowGrows(w.disk.jobs[id], n.disk.jobs[id]);
  }
}
