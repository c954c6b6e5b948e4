/** What each call and each stretch of the coordinator answers, said of the fields on record before it:
    when a result is handed out, when work is sent, how a call's end is written down. */
module Answers {
  import opened Basics
  import opened Contracts
  import opened Scheduling
  import opened Ledger
  import opened Coordinator
  import opened Invariant
  import opened Steps
  import opened TaskEnds
  import opened Runs
  import Cache

  /** The job may be used at this instant in the session it names. */
  ghost predicate UsableNow(w: World, id: string) {
    Has(w.disk, id) && Usable(w.disk.jobs[id].job, SessionOf(w.disk, id), w.mem.now, w.mem.clockId)
  }

  /** Nothing but time has passed the job by, or will. */
  ghost predicate AbreastNow(w: World, id: string) {
    && Has(w.disk, id) && Abreast(w.disk.jobs[id].job, SessionOf(w.disk, id), w.mem.clockId)
    && w.disk.jobs[id].job.snapshot <= w.mem.now
  }

  lemma ReasonMeans(w: World, id: string)
    requires Has(w.disk, id)
    ensures ReasonNow(w, id).None? <==> UsableNow(w, id)
    ensures ReasonNow(w, id).Some? ==> Lapse(ReasonNow(w, id).value) == if AbreastNow(w, id) then Expired else Stale
  {
    hide Usable, Abreast, Job.InvalidReason, Lapse;
    UsableMeans(w.disk.jobs[id].job, SessionOf(w.disk, id), w.mem.now, w.mem.clockId);
  }

  /** All other rows of the job table are untouched. */
  predicate OthersKept(d: Disk, e: Disk, id: string) {
    e.jobs.Keys == d.jobs.Keys && forall x :: x in d.jobs && x != id ==> e.jobs[x] == d.jobs[x]
  }

  // ---- consumers ----

  /** The job has a result for this consumer: delivered, usable, and not claimed by another. */
  ghost predicate Claimable(w: World, id: string, who: string) {
    && UsableNow(w, id) && StateOf(w.disk, id) in {Succeeded, Consumed}
    && (w.disk.jobs[id].receipt.consumedBy.None? || w.disk.jobs[id].receipt.consumedBy == Some(who))
  }

  /** A consumer is given a result exactly if the job and its session are known, the job is still usable,
      it has succeeded, and nobody else has claimed it; and then it is his. */
  lemma ConsumeAnswers(cfg: Config, w: World, id: string, who: string)
    requires cfg.Valid() && Reachable(cfg, w)
    ensures var out := Consume(w, id, who);
            && (out.result.Ok? <==> Claimable(w, id, who))
            && (out.result == Err(Key) <==> !Has(w.disk, id))
            && (out.result.Ok? ==>
                  && id in out.world.disk.jobs && out.result.value == out.world.disk.jobs[id].receipt
                  && out.result.value.state == Consumed && out.result.value.consumedBy == Some(who)
                  && (StateOf(w.disk, id) == Succeeded ==> out.result.value.consumedAt == Some(w.mem.now))
                  && out.result.value.prediction == w.disk.jobs[id].receipt.prediction
                  && out.result.value.prediction.Some? && OthersKept(w.disk, out.world.disk, id))
            && (out.result.Err? ==> out.world == w)
  {
    hide Inv, Reachable, UsableNow, ReasonNow;
    ReachableInv(cfg, w);
    if Has(w.disk, id) {
      ReasonMeans(w, id);
      InvLocal(cfg, w, id);
    } else {
      NotUsable(w, id);
    }
  }

  lemma NotUsable(w: World, id: string)
    requires !Has(w.disk, id)
    ensures !UsableNow(w, id)
  {
  }

  lemma SetStateIs(d: Disk, id: string, state: JobState, reason: Reason)
    requires id in d.jobs
    ensures var e := SetState(d, id, state, reason);
            && OthersKept(d, e, id) && InState(e, id, state) && e.attempts == d.attempts && e.sessions == d.sessions
            && e.jobs[id].job == d.jobs[id].job && e.quarantined == d.quarantined
  {
  }

  /** Cancelling ends whatever was not yet claimed, and only that: afterwards no result can be had that
      was not claimed before. */
  lemma CancelAnswers(w: World, id: string)
    ensures Coordinator.Cancel(w, id).result.Ok? <==> id in w.disk.jobs
    ensures id in w.disk.jobs ==>
              var n := Coordinator.Cancel(w, id).world;
              && OthersKept(w.disk, n.disk, id) && n.disk.attempts == w.disk.attempts && n.mem == w.mem
              && (Dead(StateOf(n.disk, id)) || StateOf(n.disk, id) == Consumed)
              && (Dead(StateOf(w.disk, id)) || StateOf(w.disk, id) == Consumed ==> n == w)
  {
    hide SetState;
    if id in w.disk.jobs { SetStateIs(w.disk, id, Cancelled, ConsumerCancelled); }
  }

  // ---- lapsing ----

  /** The expiry scan writes exactly the pending jobs that are not usable: expired if only time has passed
      them by, stale otherwise. */
  lemma ExpireAnswers(w: World, id: string)
    requires Has(w.disk, id)
    ensures var n := Expire(w, id);
            && OthersKept(w.disk, n.disk, id) && Has(n.disk, id)
            && (Pending(StateOf(w.disk, id)) && !UsableNow(w, id) ==>
                  StateOf(n.disk, id) == if AbreastNow(w, id) then Expired else Stale)
            && (!Pending(StateOf(w.disk, id)) || UsableNow(w, id) ==> n == w)
  {
    hide UsableNow, AbreastNow, Lapse, ReasonNow;
    ReasonMeans(w, id);
  }

  // ---- a task ----

  /** What the invariant says of a job in flight. */
  lemma TaskFacts(cfg: Config, w: World, id: string)
    requires Inv(cfg, w) && id in w.mem.tasks
    ensures w.up && Has(w.disk, id) && id in w.disk.attempts && w.disk.attempts[id].actual.None?
    ensures w.disk.attempts[id].pool == w.mem.tasks[id].endpoint.pool
    ensures var r := w.disk.jobs[id].receipt;
            r.prediction.None? && r.consumedBy.None? && r.started.Some? && !Delivered(r.state) && r.state != Queued
    ensures w.mem.tasks[id].key == KeyFor(cfg, w.disk.jobs[id].job)
    ensures if w.mem.tasks[id].sent then Used(w.calls, id) == 1 && At(w.remote, id) == Some(w.mem.tasks[id].endpoint.pool)
            else Used(w.calls, id) == 0 && id !in w.remote
  {
    hide Inv;
    InFlight(cfg, w, id);
    assert Has(w.disk, id) by { JobHas(cfg, w, id); }
  }

  lemma JobHas(cfg: Config, w: World, id: string)
    requires Inv(cfg, w) && id in w.disk.jobs
    ensures Has(w.disk, id)
  {
  }

  /** The check before sending: the call is made exactly if the job is still usable, whatever happened to
      the job while it waited; otherwise it is withdrawn at no charge. */
  lemma BeginAnswers(cfg: Config, w: World, id: string)
    requires cfg.Valid() && Reachable(cfg, w) && id in w.mem.tasks && !w.mem.tasks[id].sent
    ensures var n := Apply(cfg, w, BeginStep(id));
            if UsableNow(w, id)
            then n.disk == w.disk && id in n.mem.tasks && n.mem.tasks[id].sent && Used(n.calls, id) == 1
                 && At(n.remote, id) == Some(w.mem.tasks[id].endpoint.pool)
            else id !in n.mem.tasks && id !in n.remote && Used(n.calls, id) == 0
                 && id in n.disk.attempts && n.disk.attempts[id].actual == Some(0)
                 && InState(n.disk, id, if AbreastNow(w, id) then Expired else Stale)
  {
    hide Inv, Reachable, UsableNow, AbreastNow, ReasonNow, Lapse, Apply, SetState;
    ReachableInv(cfg, w);
    TaskFacts(cfg, w, id);
    ReasonMeans(w, id);
    BeginIs(cfg, w, id);
    if ReasonNow(w, id).Some? {
      var r := ReasonNow(w, id).value;
      SettledThenSet(w.disk, id, Lapse(r), r);
    }
  }

  lemma BeginIs(cfg: Config, w: World, id: string)
    requires cfg.Valid() && w.up && id in w.mem.tasks && !w.mem.tasks[id].sent && Has(w.disk, id)
    ensures var n := Apply(cfg, w, BeginStep(id));
            match ReasonNow(w, id)
            case None => n.disk == w.disk && n.mem.tasks == w.mem.tasks[id := w.mem.tasks[id].(sent := true)]
                         && n.remote == w.remote[id := w.mem.tasks[id].endpoint.pool]
                         && n.calls == w.calls[id := Used(w.calls, id) + 1]
            case Some(reason) => n.disk == SetState(Settle(w.disk, id, Some(0)), id, Lapse(reason), reason)
                                 && n.mem.tasks == w.mem.tasks - {id} && n.remote == w.remote && n.calls == w.calls
  {
    hide ReasonNow, Minus, Lapse, SetState, Settle;
  }

  lemma SettledThenSet(d: Disk, id: string, state: JobState, reason: Reason)
    requires id in d.jobs && id in d.attempts
    ensures var e := SetState(Settle(d, id, Some(0)), id, state, reason);
            InState(e, id, state) && id in e.attempts && e.attempts[id].actual == Some(0)
  {
  }

  /** The backend answered with a prediction, and any stamp of its first content lies within the call. */
  predicate WellStamped(r: Receipt, outcome: Outcome, now: nat) {
    outcome.Returned? && (outcome.prediction.firstContent.Some? ==>
      r.started.Some? && r.started.value <= outcome.prediction.firstContent.value <= now)
  }

  /** How the end of a call decides the job's state. */
  ghost predicate EndsAs(was: JobState, next: JobState, sound: bool, lost: bool, usable: bool, abreast: bool) {
    && (was != Running ==> next == was)
    && (was == Running ==>
          && (next == Succeeded <==> sound && usable)
          && (next == Expired <==> sound && !usable && abreast)
          && (next == Stale <==> sound && !usable && !abreast)
          && (next == Failed <==> !sound && !lost)
          && (next == Unknown <==> !sound && lost))
  }

  /** A returned prediction as it is filed. */
  predicate FiledAs(r: Receipt, p: Prediction, now: nat) {
    && r.prediction == Some(p.payload) && r.computed == Some(now) && r.completed == Some(now)
    && r.usage == Some(p.usage) && r.firstContent == p.firstContent
  }

  ghost predicate CallOver(w: World, id: string) {
    && w.up && id in w.mem.tasks && w.mem.tasks[id].sent
  }

  lemma CheckedMeans(r: Receipt, outcome: Outcome, now: nat)
    ensures var c := Checked(r, outcome, now);
            && (c.Returned? <==> WellStamped(r, outcome, now)) && (c.Returned? ==> c == outcome)
            && (c.Raised? ==> (c.ending == Unconfirmed <==> outcome.Raised? && outcome.ending == Unconfirmed)
                              && (c.ending == NotSent <==> outcome.Raised? && outcome.ending == NotSent))
  {
  }

  lemma ReturnedEnds(r: Receipt, reason: Option<Reason>, p: Prediction, now: nat, usable: bool, abreast: bool)
    requires reason.None? <==> usable
    requires reason.Some? ==> Lapse(reason.value) == if abreast then Expired else Stale
    ensures var done := Completed(r, reason, p, now);
            EndsAs(r.state, done.state, true, false, usable, abreast) && FiledAs(done, p, now)
  {
  }

  lemma RaisedEnds(r: Receipt, code: string, ending: Ending, now: nat, usable: bool, abreast: bool)
    ensures EndsAs(r.state, Aborted(r, code, ending, now).state, false, ending == Unconfirmed, usable, abreast)
    ensures Aborted(r, code, ending, now).prediction == r.prediction
  {
  }

  /** What the end of a call writes on the receipt. */
  function EndReceipt(w: World, id: string, c: Outcome): Receipt
    requires Has(w.disk, id)
  {
    match c
    case Returned(p) => Completed(w.disk.jobs[id].receipt, ReasonNow(w, id), p, w.mem.now)
    case Raised(code, ending) => Aborted(w.disk.jobs[id].receipt, code, ending, w.mem.now)
  }

  function EndCost(c: Outcome): Option<nat> {
    match c
    case Returned(p) => p.usage.cost
    case Raised(_, ending) => if ending == NotSent then Some(0) else None
  }

  lemma FinishIs(cfg: Config, w: World, id: string, outcome: Outcome)
    requires cfg.Valid() && CallOver(w, id) && Has(w.disk, id)
    ensures Apply(cfg, w, FinishStep(id, outcome))
            == match Checked(w.disk.jobs[id].receipt, outcome, w.mem.now) {
                 case Returned(p) => Complete(cfg, w, id, p)
                 case Raised(code, ending) => Abort(w, id, code, ending)
               }
  {
    hide Checked, Complete, Abort;
  }

  /** One end of a call, written down. */
  ghost predicate Written(w: World, n: World, id: string, cost: Option<nat>, r: Receipt, lost: bool)
    requires id in w.mem.tasks
  {
    && n.disk == SetReceipt(Settle(w.disk, id, cost), id, r).(quarantined := n.disk.quarantined)
    && n.disk.quarantined == w.disk.quarantined + (if lost then {w.mem.tasks[id].endpoint.pool} else {})
    && n.up == w.up && n.mem.tasks == w.mem.tasks - {id} && n.mem.now == w.mem.now && n.mem.clockId == w.mem.clockId
    && n.remote == if lost then w.remote else w.remote - {id}
  }

  lemma FinishWrites(cfg: Config, w: World, id: string, outcome: Outcome)
    requires cfg.Valid() && CallOver(w, id) && Has(w.disk, id)
    ensures var n := Apply(cfg, w, FinishStep(id, outcome));
            var c := Checked(w.disk.jobs[id].receipt, outcome, w.mem.now);
            && Written(w, n, id, EndCost(c), EndReceipt(w, id, c), c.Raised? && c.ending == Unconfirmed)
            && n.mem.cache == (if c.Returned? && EndReceipt(w, id, c).state == Succeeded
                               then Cache.Put(cfg.limits, w.mem.cache, w.mem.tasks[id].key, c.prediction.payload, w.mem.now)
                               else w.mem.cache)
  {
    hide Checked, Completed, Aborted, ReasonNow, SettleAttempt, Cache.Put;
    FinishIs(cfg, w, id, outcome);
    hide Finish;
    var c := Checked(w.disk.jobs[id].receipt, outcome, w.mem.now);
    if c.Raised? { AbortIs(w, id, c.code, c.ending); } else { CompleteIs(cfg, w, id, c.prediction); }
    hide Complete, Abort;
  }

  lemma CompleteIs(cfg: Config, w: World, id: string, p: Prediction)
    requires CallOver(w, id) && Has(w.disk, id)
    ensures var n, r := Complete(cfg, w, id, p), Completed(w.disk.jobs[id].receipt, ReasonNow(w, id), p, w.mem.now);
            && Written(w, n, id, p.usage.cost, r, false)
            && n.mem.cache == if r.state == Succeeded
                              then Cache.Put(cfg.limits, w.mem.cache, w.mem.tasks[id].key, p.payload, w.mem.now)
                              else w.mem.cache
  {
    hide Completed, ReasonNow, SettleAttempt, Minus, Cache.Put;
  }

  lemma AbortIs(w: World, id: string, code: string, ending: Ending)
    requires CallOver(w, id) && Has(w.disk, id)
    ensures var n := Abort(w, id, code, ending);
            && Written(w, n, id, if ending == NotSent then Some(0) else None,
                       Aborted(w.disk.jobs[id].receipt, code, ending, w.mem.now), ending == Unconfirmed)
            && n.mem.cache == w.mem.cache
  {
    hide Aborted, SettleAttempt, Minus;
  }

  lemma WrittenIs(d: Disk, id: string, cost: Option<nat>, r: Receipt)
    requires id in d.jobs && id in d.attempts
    ensures var e := SetReceipt(Settle(d, id, cost), id, r);
            && OthersKept(d, e, id) && id in e.jobs && e.jobs[id] == d.jobs[id].(receipt := r) && e.sessions == d.sessions
            && id in e.attempts
            && e.attempts[id] == d.attempts[id].(actual := cost, disposition := if cost.Some? then Settled else Unresolved)
  {
  }

  /** The end of a call: a job still running succeeds exactly if the answer is sound and the job usable
      now; it lapses if the answer is sound but late; it fails if there is no sound answer, and is unknown
      exactly if the call may still be running. A job no longer running keeps its state. */
  lemma FinishDecides(cfg: Config, w: World, id: string, outcome: Outcome)
    requires cfg.Valid() && Reachable(cfg, w) && CallOver(w, id)
    ensures var n := Apply(cfg, w, FinishStep(id, outcome));
            && id in w.disk.jobs && id in n.disk.jobs && OthersKept(w.disk, n.disk, id)
            && EndsAs(StateOf(w.disk, id), StateOf(n.disk, id), WellStamped(w.disk.jobs[id].receipt, outcome, w.mem.now),
                      outcome.Raised? && outcome.ending == Unconfirmed, UsableNow(w, id), AbreastNow(w, id))
  {
    hide Inv, Reachable, UsableNow, AbreastNow, ReasonNow, EndsAs, Completed, Aborted, Checked, WellStamped, Apply,
         SetReceipt, Settle;
    ReachableInv(cfg, w);
    TaskFacts(cfg, w, id);
    ReasonMeans(w, id);
    var r := w.disk.jobs[id].receipt;
    var c := Checked(r, outcome, w.mem.now);
    FinishWrites(cfg, w, id, outcome);
    WrittenIs(w.disk, id, EndCost(c), EndReceipt(w, id, c));
    CheckedMeans(r, outcome, w.mem.now);
    match c
    case Returned(p) => ReturnedEnds(r, ReasonNow(w, id), p, w.mem.now, UsableNow(w, id), AbreastNow(w, id));
    case Raised(code, ending) => RaisedEnds(r, code, ending, w.mem.now, UsableNow(w, id), AbreastNow(w, id));
  }

  /** And what is filed: a sound answer in full with the cost it reported, whatever the job's state; for
      any other end no prediction, and a charge only if nothing was sent. */
  lemma FinishFiles(cfg: Config, w: World, id: string, outcome: Outcome)
    requires cfg.Valid() && Reachable(cfg, w) && CallOver(w, id)
    ensures var n := Apply(cfg, w, FinishStep(id, outcome));
            && id in w.disk.jobs && id in n.disk.jobs && id in n.disk.attempts
            && if WellStamped(w.disk.jobs[id].receipt, outcome, w.mem.now)
               then FiledAs(n.disk.jobs[id].receipt, outcome.prediction, w.mem.now)
                    && n.disk.attempts[id].actual == outcome.prediction.usage.cost
               else n.disk.jobs[id].receipt.prediction.None?
                    && n.disk.attempts[id].actual == if outcome.Raised? && outcome.ending == NotSent then Some(0) else None
  {
    hide Inv, Reachable, ReasonNow, EndsAs, Completed, Aborted, Checked, WellStamped, FiledAs, Apply, SetReceipt, Settle;
    ReachableInv(cfg, w);
    TaskFacts(cfg, w, id);
    ReasonMeans(w, id);
    var r := w.disk.jobs[id].receipt;
    var c := Checked(r, outcome, w.mem.now);
    FinishWrites(cfg, w, id, outcome);
    WrittenIs(w.disk, id, EndCost(c), EndReceipt(w, id, c));
    CheckedMeans(r, outcome, w.mem.now);
    match c
    case Returned(p) => ReturnedEnds(r, ReasonNow(w, id), p, w.mem.now, UsableNow(w, id), AbreastNow(w, id));
    case Raised(code, ending) => RaisedEnds(r, code, ending, w.mem.now, UsableNow(w, id), AbreastNow(w, id));
  }

  /** The slot is given back in any case; the pool is quarantined, and the call kept as possibly running,
      exactly if its end is unconfirmed. */
  lemma FinishFrees(cfg: Config, w: World, id: string, outcome: Outcome)
    requires cfg.Valid() && Reachable(cfg, w) && CallOver(w, id)
    ensures var n, lost := Apply(cfg, w, FinishStep(id, outcome)), outcome.Raised? && outcome.ending == Unconfirmed;
            && n.mem.tasks == w.mem.tasks - {id} && (id in n.remote <==> lost)
            && n.disk.quarantined == w.disk.quarantined + (if lost then {w.mem.tasks[id].endpoint.pool} else {})
  {
    hide Inv, Reachable, Completed, Aborted, Checked, Apply, SetReceipt, Settle, WellStamped;
    ReachableInv(cfg, w);
    TaskFacts(cfg, w, id);
    FinishWrites(cfg, w, id, outcome);
    CheckedMeans(w.disk.jobs[id].receipt, outcome, w.mem.now);
  }

  /** A sound answer to a running, usable job reaches whoever asks first. */
  lemma SuccessIsDelivered(cfg: Config, w: World, id: string, outcome: Outcome, who: string)
    requires cfg.Valid() && Reachable(cfg, w) && CallOver(w, id) && InState(w.disk, id, Running) && UsableNow(w, id)
    requires WellStamped(w.disk.jobs[id].receipt, outcome, w.mem.now)
    ensures var out := Consume(Apply(cfg, w, FinishStep(id, outcome)), id, who);
            out.result.Ok? && out.result.value.prediction == Some(outcome.prediction.payload)
  {
    hide Inv, Reachable, FiledAs, Apply, Consume, UsableNow;
    var n := Apply(cfg, w, FinishStep(id, outcome));
    FinishDecides(cfg, w, id, outcome);
    ReachesOn(cfg, w, FinishStep(id, outcome));
    ReachableInv(cfg, n);
    Unclaimed(cfg, n, id);
    StillUsable(cfg, w, id, outcome);
    ConsumeAnswers(cfg, n, id, who);
    FinishFiles(cfg, w, id, outcome);
    assert n.disk.jobs[id].receipt.prediction == Some(outcome.prediction.payload) by {
      FiledPayload(n.disk.jobs[id].receipt, outcome.prediction, w.mem.now);
    }
  }

  lemma FiledPayload(r: Receipt, p: Prediction, now: nat)
    requires FiledAs(r, p, now)
    ensures r.prediction == Some(p.payload)
  {
  }

  lemma Unclaimed(cfg: Config, w: World, id: string)
    requires Inv(cfg, w) && InState(w.disk, id, Succeeded)
    ensures w.disk.jobs[id].receipt.consumedBy.None?
  {
    hide Inv;
    InvLocal(cfg, w, id);
  }

  lemma StillUsable(cfg: Config, w: World, id: string, outcome: Outcome)
    requires cfg.Valid() && Reachable(cfg, w) && CallOver(w, id) && UsableNow(w, id)
    ensures UsableNow(Apply(cfg, w, FinishStep(id, outcome)), id)
  {
    hide Inv, Reachable, Completed, Aborted, Checked, Apply, SetReceipt, Settle, Usable;
    ReachableInv(cfg, w);
    TaskFacts(cfg, w, id);
    FinishWrites(cfg, w, id, outcome);
    var c := Checked(w.disk.jobs[id].receipt, outcome, w.mem.now);
    WrittenIs(w.disk, id, EndCost(c), EndReceipt(w, id, c));
  }

  // ---- between two processes ----

  /** What a restart makes of a job: what ran is unknown, what waited is cancelled, nothing else is
      touched; its attempt waits for nobody, and a charge is forgotten exactly if the job was still running. */
  lemma RestartAnswers(cfg: Config, w: World, clockId: string, now: nat, id: string)
    requires cfg.Valid() && !w.up && id in w.disk.jobs
    ensures var n := Apply(cfg, w, RestartStep(clockId, now));
            && n.up && n.mem.tasks == map[] && n.mem.clockId == clockId && id in n.disk.jobs
            && (StateOf(w.disk, id) == Running ==> StateOf(n.disk, id) == Unknown)
            && (StateOf(w.disk, id) == Queued ==> StateOf(n.disk, id) == Cancelled)
            && (StateOf(w.disk, id) !in {Queued, Running} ==> n.disk.jobs[id] == w.disk.jobs[id])
            && n.disk.jobs[id].receipt.prediction == w.disk.jobs[id].receipt.prediction
            && (id in w.disk.attempts ==>
                  && id in n.disk.attempts && n.disk.attempts[id].disposition != Reserved
                  && n.disk.attempts[id].actual
                     == if StateOf(w.disk, id) == Running then None else w.disk.attempts[id].actual)
  {
  }

  /** Each entry's own charge is on the attempt it names, and nothing else on record has changed. */
  ghost predicate Charged(d: Disk, e: Disk, entries: seq<Entry>) {
    && e == d.(attempts := e.attempts) && e.attempts.Keys == d.attempts.Keys
    && (forall i :: 0 <= i < |entries| ==>
          entries[i].id in d.attempts && 0 <= entries[i].actual
          && e.attempts[entries[i].id] == d.attempts[entries[i].id].(actual := Some(entries[i].actual), disposition := Settled))
    && (forall j :: j in d.attempts && !Named(entries, j) ==> e.attempts[j] == d.attempts[j])
  }

  lemma ChargeOne(d: Disk, mid: Disk, entries: seq<Entry>)
    requires entries != [] && Reconcilable(d, entries) && Charged(d, mid, entries[..|entries| - 1])
    ensures var x := entries[|entries| - 1]; 0 <= x.actual && Charged(d, Settle(mid, x.id, Some(x.actual)), entries)
  {
    hide Named;
    var n := |entries| - 1;
    var x, front := entries[n], entries[..n];
    assert WellFormed(x);
    var e := Settle(mid, x.id, Some(x.actual));
    assert !Named(front, x.id) by { NotNamed(entries); }
    forall i | 0 <= i < |entries|
      ensures entries[i].id in d.attempts && 0 <= entries[i].actual
              && e.attempts[entries[i].id]
                 == d.attempts[entries[i].id].(actual := Some(entries[i].actual), disposition := Settled)
    {
      if i < n { assert front[i] == entries[i]; }
    }
    forall j | j in d.attempts && !Named(entries, j) ensures e.attempts[j] == d.attempts[j] { NamesFront(entries, j); }
  }

  lemma NotNamed(entries: seq<Entry>)
    requires entries != [] && forall i, j :: 0 <= i < j < |entries| ==> entries[i].id != entries[j].id
    ensures !Named(entries[..|entries| - 1], entries[|entries| - 1].id)
  {
  }

  lemma NamesFront(entries: seq<Entry>, j: string)
    requires entries != [] && !Named(entries, j)
    ensures !Named(entries[..|entries| - 1], j) && entries[|entries| - 1].id != j
  {
    var front := entries[..|entries| - 1];
    forall i | 0 <= i < |front| ensures front[i].id != j { assert front[i] == entries[i]; }
  }

  lemma {:induction false} ReconcileRecords(d: Disk, entries: seq<Entry>)
    requires Reconcilable(d, entries)
    ensures Charged(d, Reconcile(d, entries), entries)
  {
    hide Charged;
    if entries == [] {
      NothingCharged(d);
    } else {
      var n := |entries| - 1;
      assert forall i :: 0 <= i < n ==> entries[..n][i] == entries[i];
      ReconcileRecords(d, entries[..n]);
      ChargeOne(d, Reconcile(d, entries[..n]), entries);
    }
  }

  lemma NothingCharged(d: Disk)
    ensures Charged(d, d, [])
  {
  }

  /** An import is taken as a whole or not at all; taken, it records each entry's own charge on the attempt
      it names, and touches nothing else on record. */
  lemma ImportAnswers(cfg: Config, w: World, entries: seq<Entry>)
    requires cfg.Valid() && !w.up
    ensures var n := Apply(cfg, w, ReconcileStep(entries));
            if Reconcilable(w.disk, entries) then Charged(w.disk, n.disk, entries) else n == w
  {
    hide Reconcile, WellFormed, StillReserved, Charged;
    if Reconcilable(w.disk, entries) { ReconcileRecords(w.disk, entries); }
  }

  /** An extension is granted exactly on approval and if no cap shrinks; then the caps are those asked for. */
  lemma ExtendAnswers(cfg: Config, w: World, attempts: nat, money: nat, approval: string)
    requires cfg.Valid()
    ensures var n := Apply(cfg, w, ExtendStep(attempts, money, approval));
            n == if approval != "" && attempts >= w.disk.maxAttempts && money >= w.disk.maxMicrousd
                 then w.(disk := w.disk.(maxAttempts := attempts, maxMicrousd := money)) else w
  {
  }

  /** A release opens the pool named and no other: calls of earlier attempts on it count as ended, calls in
      flight do not. */
  lemma ReleaseAnswers(cfg: Config, w: World, pool: string, p: string, j: string)
    requires cfg.Valid()
    ensures var n := Apply(cfg, w, ReleaseStep(pool));
            && n.disk == w.disk.(quarantined := n.disk.quarantined) && n.mem == w.mem
            && (p in n.disk.quarantined <==> p in w.disk.quarantined && p != pool)
            && (j in n.remote <==> j in w.remote && (j in w.mem.tasks || w.remote[j] != pool))
  {
  }
}
