/** What a submission answers, said of the fields of the job and of what is on record: who is refused, who
    is queued, what is replaced, and what that does to a job that depends on what it replaces. */
module Admission {
  import opened Basics
  import opened Contracts
  import opened Ledger
  import opened Coordinator
  import opened Placing
  import opened Invariant
  import opened SubmitSteps
  import opened Runs

  // ---- the rules ----

  /** A queued job of the new one's replacement slot. */
  predicate SlotMate(d: Disk, job: Job, x: string) {
    && job.replaceKey.Some? && InState(d, x, Queued)
    && var y := d.jobs[x].job;
       && y.sessionId == job.sessionId && y.epoch == job.epoch && y.taskRevision == job.taskRevision
       && y.replaceKey == job.replaceKey && y.model == job.model && y.operation == job.operation
  }

  /** A queued or running job depends on it. */
  ghost predicate Needed(d: Disk, x: string) {
    exists c :: c in d.jobs && StateOf(d, c) in {Queued, Running} && x in d.jobs[c].job.dependencies
  }

  ghost predicate Replaceable(d: Disk, job: Job, x: string) {
    SlotMate(d, job, x) && d.jobs[x].job.snapshot < job.snapshot && !Needed(d, x)
  }

  ghost function Replaced(d: Disk, job: Job): set<string> { set x | x in d.jobs && Replaceable(d, job, x) }

  /** An endpoint may serve it and, without leave to use the network, some such endpoint does not need it. */
  ghost predicate HasEndpoint(cfg: Config, job: Job) {
    && (exists e :: MayServe(cfg, job, e))
    && (cfg.allowNetwork || exists e :: MayServe(cfg, job, e) && (e.mock || e.id in cfg.custom))
  }

  /** Usable now, newest of its slot, room in the queue once the replaced jobs are gone, somewhere to go. */
  ghost predicate Welcome(cfg: Config, w: World, job: Job)
    requires job.sessionId in w.disk.sessions
  {
    && Usable(job, w.disk.sessions[job.sessionId], w.mem.now, w.mem.clockId)
    && (forall x :: SlotMate(w.disk, job, x) ==> w.disk.jobs[x].job.snapshot < job.snapshot)
    && |QueuedSet(w.disk)| - |Replaced(w.disk, job)| < cfg.maxQueue
    && HasEndpoint(cfg, job)
  }

  /** Every dependency is on record, of the same session, epoch and task, with its evidence repeated here. */
  ghost predicate DepsInLine(d: Disk, job: Job) {
    forall dep :: dep in job.dependencies ==>
      && dep in d.jobs
      && var p := d.jobs[dep].job;
         && p.sessionId == job.sessionId && p.epoch == job.epoch && p.taskRevision == job.taskRevision
         && forall o :: o in p.observations ==> exists c :: c in job.observations && c.(role := o.role) == o
  }

  /** No source id is reused for other evidence. */
  predicate EvidenceAgrees(d: Disk, job: Job) {
    forall o :: o in job.observations && (job.sessionId, o.id) in d.observations ==>
      d.observations[(job.sessionId, o.id)] == o.(role := Current)
  }

  /** A new job that is put on record, queued or rejected. */
  ghost predicate Recordable(cfg: Config, w: World, job: Job) {
    && job.Valid() && !w.mem.closed && job.tenant == cfg.tenant && job.id !in w.disk.jobs
    && job.model in cfg.models && |w.disk.jobs| < cfg.maxJobs && job.sessionId in w.disk.sessions
    && DepsInLine(w.disk, job) && EvidenceAgrees(w.disk, job)
  }

  /** The same job again. */
  ghost predicate Repeats(cfg: Config, w: World, job: Job) {
    && job.Valid() && !w.mem.closed && job.tenant == cfg.tenant
    && job.id in w.disk.jobs && w.disk.jobs[job.id].job == job
  }

  // ---- evidence ----

  ghost predicate Agrees(known: Observations, session: string, obs: seq<Observation>) {
    forall o :: o in obs && (session, o.id) in known ==> known[(session, o.id)] == o.Identity()
  }

  ghost predicate Unrepeated(obs: seq<Observation>) {
    forall i, j :: 0 <= i < j < |obs| ==> obs[i].id != obs[j].id
  }

  /** Evidence is added exactly if it agrees with what is known, and then is known under its own ids,
      with nothing known before changed. */
  lemma {:induction false} EvidenceMeans(known: Observations, session: string, obs: seq<Observation>)
    requires Unrepeated(obs)
    ensures var r := AddObservations(known, session, obs);
            && (r.Some? <==> Agrees(known, session, obs))
            && (r.Some? ==>
                  && (forall k :: k in known ==> k in r.value && r.value[k] == known[k])
                  && (forall o :: o in obs ==> (session, o.id) in r.value && r.value[(session, o.id)] == o.Identity()))
    decreases |obs|
  {
    if obs != [] {
      var o := obs[0];
      assert obs == [o] + obs[1..];
      var key := (session, o.id);
      var next := if key in known then known else known[key := o.Identity()];
      EvidenceMeans(next, session, obs[1..]);
      forall x | x in obs[1..] ensures x.id != o.id {
        var k :| 0 <= k < |obs| - 1 && obs[1..][k] == x;
        assert obs[k + 1] == x;
      }
      assert key !in known || known[key] == o.Identity() ==> (Agrees(next, session, obs[1..]) <==> Agrees(known, session, obs));
    }
  }

  // ---- refusals ----

  lemma SourcesMean(p: Job, job: Job)
    ensures SourcesWithin(p, job) <==>
            forall o :: o in p.observations ==> exists c :: c in job.observations && c.(role := o.role) == o
  {
    forall o | o in p.observations
      ensures (exists c :: c in job.observations && c.Identity() == o.Identity())
              <==> (exists c :: c in job.observations && c.(role := o.role) == o)
    {
      forall c | c in job.observations ensures c.Identity() == o.Identity() <==> c.(role := o.role) == o {
        SameButRole(c, o);
      }
    }
  }

  lemma SameButRole(c: Observation, o: Observation)
    ensures c.Identity() == o.Identity() <==> c.(role := o.role) == o
  {
    if c.Identity() == o.Identity() {
      assert c.Identity().id == o.Identity().id && c.Identity().source == o.Identity().source
             && c.Identity().sequence == o.Identity().sequence && c.Identity().sha256 == o.Identity().sha256
             && c.Identity().capture == o.Identity().capture && c.Identity().available == o.Identity().available
             && c.Identity().uncertainty == o.Identity().uncertainty && c.Identity().sourceTime == o.Identity().sourceTime;
    }
    if c.(role := o.role) == o {
      assert c.(role := o.role).Identity() == c.Identity();
    }
  }

  lemma {:induction false} CheckDepsMeans(d: Disk, job: Job, deps: seq<string>)
    ensures CheckDeps(d, job, deps).None? <==>
            forall dep :: dep in deps ==>
              dep in d.jobs && SameLine(d.jobs[dep].job, job) && SourcesWithin(d.jobs[dep].job, job)
    decreases |deps|
  {
    hide SameLine, SourcesWithin;
    if deps != [] {
      CheckDepsMeans(d, job, deps[1..]);
      assert deps == [deps[0]] + deps[1..];
    }
  }

  lemma DepsMean(d: Disk, job: Job)
    ensures CheckDeps(d, job, job.dependencies).None? <==> DepsInLine(d, job)
  {
    hide SourcesWithin;
    CheckDepsMeans(d, job, job.dependencies);
    forall dep | dep in job.dependencies && dep in d.jobs
      ensures SourcesWithin(d.jobs[dep].job, job) <==>
              forall o :: o in d.jobs[dep].job.observations ==> exists c :: c in job.observations && c.(role := o.role) == o
    {
      SourcesMean(d.jobs[dep].job, job);
    }
  }

  lemma RefusalMeans(cfg: Config, w: World, job: Job)
    ensures Refusal(cfg, w, job).None? && job.id in w.disk.jobs <==> Repeats(cfg, w, job)
    ensures Reaches(cfg, w, job) && EvidenceAgrees(w.disk, job) <==> Recordable(cfg, w, job)
  {
    hide Job.Valid, CheckDeps, DepsInLine, EvidenceAgrees;
    DepsMean(w.disk, job);
  }

  lemma AgreesMeans(d: Disk, job: Job)
    ensures Agrees(d.observations, job.sessionId, job.observations) <==> EvidenceAgrees(d, job)
  {
    forall o | o in job.observations ensures o.Identity() == o.(role := Current) { }
  }

  lemma ValidUnrepeated(job: Job)
    requires job.Valid()
    ensures Unrepeated(job.observations)
  {
  }

  lemma KnownEvidence(cfg: Config, w: World, job: Job)
    requires Reaches(cfg, w, job)
    ensures AddObservations(w.disk.observations, job.sessionId, job.observations).Some? <==> EvidenceAgrees(w.disk, job)
  {
    hide Refusal, Agrees, EvidenceAgrees, Job.Valid, Unrepeated;
    ReachesFits(cfg, w, job);
    ValidUnrepeated(job);
    EvidenceMeans(w.disk.observations, job.sessionId, job.observations);
    AgreesMeans(w.disk, job);
  }

  /** A submission is answered exactly if it repeats a job on record, whose receipt it is then given with
      nothing changed, or can be put on record; otherwise nothing changes. */
  lemma SubmitAccepts(cfg: Config, w: World, job: Job)
    ensures var out := Submit(cfg, w, job);
            && (out.result.Ok? <==> Repeats(cfg, w, job) || Recordable(cfg, w, job))
            && (Repeats(cfg, w, job) ==> out == Out(w, Ok(w.disk.jobs[job.id].receipt)))
            && (out.result.Err? ==> out.world == w)
  {
    hide Refusal, Repeats, Recordable, Judge, Supersede, EvidenceAgrees, AddObservations;
    RefusalMeans(cfg, w, job);
    if Reaches(cfg, w, job) {
      ReachesFits(cfg, w, job);
      KnownEvidence(cfg, w, job);
    }
    assert Repeats(cfg, w, job) ==> job.id in w.disk.jobs;
  }

  // ---- the decision ----

  lemma MatesMean(d: Disk, job: Job, x: string)
    requires job.replaceKey.Some? && InState(d, x, Queued)
    ensures SlotMate(d, job, x) <==> SameSlot(d.jobs[x].job, job)
  {
  }

  lemma NeededMeans(d: Disk, x: string)
    ensures Needed(d, x) <==> DependedOn(d, x)
  {
    forall c | c in d.jobs ensures Pending(StateOf(d, c)) <==> StateOf(d, c) in {Queued, Running} { }
  }

  /** What the scan over the whole queue finds. */
  lemma ScanMeans(d: Disk, job: Job)
    requires OrderOk(d) && job.replaceKey.Some?
    ensures var r := ScanReplace(d, job, QueuedIds(d));
            && (forall x :: x in r.superseded <==> Replaceable(d, job, x))
            && |r.superseded| == |Replaced(d, job)|
            && (!r.newer <==> forall x :: SlotMate(d, job, x) ==> d.jobs[x].job.snapshot < job.snapshot)
  {
    hide SameSlot, SlotMate, Needed, DependedOn, QueuedIds, OrderOk;
    QueuedListed(d);
    ScanSelects(d, job, QueuedIds(d));
    hide ScanReplace;
    var r := ScanReplace(d, job, QueuedIds(d));
    forall x | InState(d, x, Queued) ensures SlotMate(d, job, x) <==> SameSlot(d.jobs[x].job, job) { MatesMean(d, job, x); }
    forall x | SlotMate(d, job, x) ensures InState(d, x, Queued) { MateIsQueued(d, job, x); }
    forall x ensures x in r.superseded <==> Replaceable(d, job, x) { NeededMeans(d, x); }
    DistinctCount(r.superseded, Replaced(d, job));
  }

  lemma MateIsQueued(d: Disk, job: Job, x: string)
    requires SlotMate(d, job, x)
    ensures InState(d, x, Queued) && job.replaceKey.Some?
  {
  }

  lemma NoSlot(d: Disk, job: Job)
    requires job.replaceKey.None?
    ensures Replaced(d, job) == {} && forall x :: !SlotMate(d, job, x)
  {
    forall x ensures !SlotMate(d, job, x) { }
  }

  lemma EndpointMeans(cfg: Config, job: Job)
    ensures var eps := Allowed(cfg, job);
            eps != [] && !(!cfg.allowNetwork && forall e :: e in eps ==> !e.mock && e.id !in cfg.custom)
            <==> HasEndpoint(cfg, job)
  {
    hide MayServe, Allowed;
    AllowedMeans(cfg, job);
    var eps := Allowed(cfg, job);
    if eps != [] { assert eps[0] in eps; }
  }

  /** The verdict on a job that can be put on record. */
  lemma JudgeMeans(cfg: Config, w: World, job: Job)
    requires OrderOk(w.disk) && job.sessionId in w.disk.sessions
    ensures var v := Judge(cfg, w, job);
            && (v.reason.None? <==> Welcome(cfg, w, job))
            && (v.reason.None? ==> forall x :: x in v.superseded <==> Replaceable(w.disk, job, x))
  {
    hide SlotMate, Replaceable, Usable, HasEndpoint, Allowed, ScanReplace, Job.InvalidReason, QueuedIds, OrderOk, Replaced;
    UsableMeans(job, w.disk.sessions[job.sessionId], w.mem.now, w.mem.clockId);
    QueuedListed(w.disk);
    EndpointMeans(cfg, job);
    if job.replaceKey.Some? {
      ScanMeans(w.disk, job);
    } else {
      NoSlot(w.disk, job);
      forall x ensures !Replaceable(w.disk, job, x) { NotReplaceable(w.disk, job, x); }
    }
  }

  lemma NotReplaceable(d: Disk, job: Job, x: string)
    requires job.replaceKey.None?
    ensures !Replaceable(d, job, x)
  {
  }

  /** The new row: queued exactly if welcome, rejected with a reason otherwise. */
  ghost predicate Recorded(cfg: Config, w: World, d: Disk, job: Job)
    requires job.sessionId in w.disk.sessions
  {
    && d == w.disk.(jobs := d.jobs, order := d.order, observations := d.observations)
    && d.jobs.Keys == w.disk.jobs.Keys + {job.id} && d.jobs[job.id].job == job && d.order == w.disk.order + [job.id]
    && InState(d, job.id, if Welcome(cfg, w, job) then Queued else Rejected)
    && (d.jobs[job.id].receipt.reason.Some? <==> !Welcome(cfg, w, job))
    && d.jobs[job.id].receipt.submitted == w.mem.now
  }

  /** The evidence is on record under its source ids, and none recorded before has changed. */
  ghost predicate EvidenceRecorded(d: Disk, e: Disk, job: Job) {
    && (forall k :: k in d.observations ==> k in e.observations && e.observations[k] == d.observations[k])
    && forall o :: o in job.observations ==>
         (job.sessionId, o.id) in e.observations && e.observations[(job.sessionId, o.id)] == o.(role := Current)
  }

  /** What becomes of the jobs already on record: those replaceable are superseded if the new job is
      queued, and no other is touched. */
  ghost predicate Replaces(cfg: Config, w: World, d: Disk, job: Job)
    requires job.sessionId in w.disk.sessions
  {
    forall x :: x in w.disk.jobs ==>
      x in d.jobs && if Welcome(cfg, w, job) && Replaceable(w.disk, job, x) then StateOf(d, x) == Superseded
                     else d.jobs[x] == w.disk.jobs[x]
  }

  lemma {:induction false} SupersedeIs(d: Disk, ids: seq<string>)
    ensures var e := Supersede(d, ids);
            && e == d.(jobs := e.jobs) && e.jobs.Keys == d.jobs.Keys
            && forall x :: x in d.jobs ==>
                 e.jobs[x].job == d.jobs[x].job && if x in ids then StateOf(e, x) == Superseded else e.jobs[x] == d.jobs[x]
    decreases |ids|
  {
    if ids != [] {
      var e := SetState(d, ids[0], Superseded, ExplicitReplacement);
      assert ids == [ids[0]] + ids[1..];
      SupersedeIs(e, ids[1..]);
      SetStateIsOnly(d, ids[0]);
      hide SetState;
    }
  }

  lemma SetStateIsOnly(d: Disk, id: string)
    ensures var e := SetState(d, id, Superseded, ExplicitReplacement);
            && e == d.(jobs := e.jobs) && e.jobs.Keys == d.jobs.Keys
            && forall x :: x in d.jobs ==>
                 e.jobs[x].job == d.jobs[x].job && if x == id then StateOf(e, x) == Superseded else e.jobs[x] == d.jobs[x]
  {
  }

  lemma AddedIs(cfg: Config, w: World, job: Job, known: Observations, reason: Option<Reason>, sup: seq<string>)
    requires job.id !in w.disk.jobs && job.sessionId in w.disk.sessions && (reason.None? <==> Welcome(cfg, w, job))
    requires forall x :: x in sup <==> Welcome(cfg, w, job) && Replaceable(w.disk, job, x)
    ensures var d := Adding(w.(disk := Supersede(w.disk, sup)), known, job, NewReceipt(job, reason, w.mem.now)).disk;
            && Recorded(cfg, w, d, job) && Replaces(cfg, w, d, job) && d.observations == known
            && d.jobs[job.id].receipt == NewReceipt(job, reason, w.mem.now)
  {
    hide Welcome, Replaceable, Supersede;
    SupersedeIs(w.disk, sup);
  }

  lemma NewEvidence(cfg: Config, w: World, job: Job)
    requires Recordable(cfg, w, job)
    ensures var known := AddObservations(w.disk.observations, job.sessionId, job.observations);
            known.Some? && EvidenceRecorded(w.disk, w.disk.(observations := known.value), job)
  {
    hide Agrees, EvidenceAgrees, DepsInLine, AddObservations;
    ValidUnrepeated(job);
    EvidenceMeans(w.disk.observations, job.sessionId, job.observations);
    AgreesMeans(w.disk, job);
  }

  /** A new job is queued exactly if welcome; then it replaces exactly the replaceable jobs of its slot. */
  lemma SubmitDecides(cfg: Config, w: World, job: Job)
    requires cfg.Valid() && Reachable(cfg, w) && Recordable(cfg, w, job)
    ensures var n := Submit(cfg, w, job).world;
            && Recorded(cfg, w, n.disk, job) && Replaces(cfg, w, n.disk, job) && EvidenceRecorded(w.disk, n.disk, job)
            && n == w.(disk := n.disk) && Submit(cfg, w, job).result == Ok(n.disk.jobs[job.id].receipt)
  {
    hide Inv, Reachable, Refusal, Judge, Welcome, Replaceable, EvidenceAgrees, AddObservations, Supersede, Submit, OrderOk,
         Recorded, Replaces, Distinct, SlotFree, Allowed, Recordable;
    ReachableInv(cfg, w);
    InvOrder(cfg, w);
    RefusalMeans(cfg, w, job);
    NewEvidence(cfg, w, job);
    ReachesFits(cfg, w, job);
    JudgeMeans(cfg, w, job);
    SubmitIs(cfg, w, job);
    SubmitResult(cfg, w, job);
    var v := Judge(cfg, w, job);
    var sup := if v.reason.Some? then [] else v.superseded;
    assert v.superseded[..|v.superseded|] == v.superseded;
    AddedIs(cfg, w, job, AddObservations(w.disk.observations, job.sessionId, job.observations).value, v.reason, sup);
  }

  lemma SubmitResult(cfg: Config, w: World, job: Job)
    requires Reaches(cfg, w, job) && job.sessionId in w.disk.sessions
    requires AddObservations(w.disk.observations, job.sessionId, job.observations).Some?
    ensures Submit(cfg, w, job).result == Ok(NewReceipt(job, Judge(cfg, w, job).reason, w.mem.now))
  {
    hide Refusal, Judge, AddObservations, Supersede;
  }

  // ---- a job that replaces what it depends on ----

  /** Queued, and with a dependency from which no result can ever come. */
  ghost predicate Doomed(d: Disk, id: string) {
    InState(d, id, Queued) && exists dep :: dep in d.jobs[id].job.dependencies && dep in d.jobs && Dead(StateOf(d, dep))
  }

  /** A job just admitted is doomed exactly if a dependency was dead before or is replaced by the very
      submission: the scan for pending dependents does not yet count the new job. */
  lemma AdmittedDoomed(cfg: Config, w: World, job: Job)
    requires cfg.Valid() && Reachable(cfg, w) && Recordable(cfg, w, job) && Welcome(cfg, w, job)
    ensures Doomed(Submit(cfg, w, job).world.disk, job.id) <==>
            exists dep :: dep in job.dependencies && dep in w.disk.jobs
                          && (Dead(StateOf(w.disk, dep)) || Replaceable(w.disk, job, dep))
  {
    hide Reachable, Welcome, Replaceable, Submit, Recordable;
    SubmitDecides(cfg, w, job);
    var d := Submit(cfg, w, job).world.disk;
    assert job.id !in job.dependencies by { NoSelfDep(cfg, w, job); }
    forall dep | dep in job.dependencies && dep in d.jobs
      ensures dep in w.disk.jobs
              && (Dead(StateOf(d, dep)) <==> Dead(StateOf(w.disk, dep)) || Replaceable(w.disk, job, dep)) {
    }
  }

  lemma NoSelfDep(cfg: Config, w: World, job: Job)
    requires Recordable(cfg, w, job)
    ensures job.id !in job.dependencies
  {
  }
}
