/** Admission of a job, with latest-only replacement, keeps the invariant. */
module SubmitSteps {
  import opened Basics
  import opened Contracts
  import opened Ledger
  import opened Coordinator
  import opened Invariant
  import opened Steps
  import opened WorldSteps

  type Observations = map<(string, string), Observation>

  // ---- the new row ----

  function WithRow(d: Disk, known: Observations, job: Job, r: Receipt): Disk {
    d.(observations := known, jobs := d.jobs[job.id := Row(job, r, |d.order|)], order := d.order + [job.id])
  }

  function Adding(w: World, known: Observations, job: Job, r: Receipt): World { w.(disk := WithRow(w.disk, known, job, r)) }

  ghost predicate DepsFit(d: Disk, job: Job) {
    forall dep :: dep in job.dependencies ==>
      dep in d.jobs && SameLine(d.jobs[dep].job, job) && SourcesWithin(d.jobs[dep].job, job)
  }

  /** Older queued jobs of the slot are older in snapshot too. */
  ghost predicate SlotFree(d: Disk, job: Job) {
    job.replaceKey.Some? ==>
      forall a :: InState(d, a, Queued) && SameSlot(d.jobs[a].job, job) ==> d.jobs[a].job.snapshot < job.snapshot
  }

  ghost predicate Admissible(cfg: Config, w: World, job: Job, reason: Option<Reason>) {
    && job.id !in w.disk.jobs && job.sessionId in w.disk.sessions && DepsFit(w.disk, job)
    && (reason.None? ==> job.epoch <= w.disk.sessions[job.sessionId].epoch && Allowed(cfg, job) != [])
    && (w.up && reason.None? ==> |QueuedSet(w.disk)| < cfg.maxQueue && SlotFree(w.disk, job))
  }

  lemma AddTables(d: Disk, known: Observations, job: Job, r: Receipt)
    requires OrderOk(d) && SessionsOk(d) && job.id !in d.jobs && job.sessionId in d.sessions
    requires Alive(r.state) ==> job.epoch <= d.sessions[job.sessionId].epoch
    ensures OrderOk(WithRow(d, known, job, r)) && SessionsOk(WithRow(d, known, job, r))
  {
  }

  lemma AddGraph(d: Disk, known: Observations, job: Job, r: Receipt)
    requires OrderOk(d) && Graph(d) && job.id !in d.jobs && DepsFit(d, job)
    ensures Graph(WithRow(d, known, job, r))
  {
    var e := WithRow(d, known, job, r);
    forall id, dep | id in e.jobs && dep in e.jobs[id].job.dependencies ensures EdgeOk(e, id, dep) {
      if id != job.id { assert EdgeOk(d, id, dep); }
    }
  }

  lemma AddProgress(d: Disk, known: Observations, job: Job, r: Receipt)
    requires Progress(d) && job.id !in d.jobs && job.id !in d.attempts && r.prediction.None?
    ensures Progress(WithRow(d, known, job, r))
  {
    var e := WithRow(d, known, job, r);
    forall id | id in e.jobs && (id in e.attempts || e.jobs[id].receipt.prediction.Some?) ensures Fed(e, id) {
      assert id != job.id && Fed(d, id);
    }
  }

  lemma NewLocal(cfg: Config, up: bool, job: Job, reason: Option<Reason>, now: nat, q: set<string>)
    requires reason.None? ==> Allowed(cfg, job) != []
    ensures Local(cfg, up, job.id, View(job, NewReceipt(job, reason, now), None, None, None, 0, None), q)
  {
  }

  lemma AddLocals(cfg: Config, w: World, known: Observations, job: Job, reason: Option<Reason>, now: nat)
    requires Locals(cfg, w) && Owned(w) && Admissible(cfg, w, job, reason)
    ensures Locals(cfg, Adding(w, known, job, NewReceipt(job, reason, now)))
  {
    hide Local;
    var n := Adding(w, known, job, NewReceipt(job, reason, now));
    forall id | id in n.disk.jobs ensures Local(cfg, n.up, id, ViewOf(n, id), Cover(n)) {
      if id == job.id {
        NewLocal(cfg, w.up, job, reason, now, Cover(w));
        assert ViewOf(n, id) == View(job, NewReceipt(job, reason, now), None, None, None, 0, None);
      } else {
        LocalOf(cfg, w, id);
        assert ViewOf(n, id) == ViewOf(w, id);
      }
    }
  }

  lemma AddMoney(cfg: Config, w: World, known: Observations, job: Job, r: Receipt)
    requires Solvent(w.disk) && Owned(w) && Seats(cfg, w) && job.id !in w.disk.jobs
    ensures Solvent(WithRow(w.disk, known, job, r)) && Seats(cfg, Adding(w, known, job, r)) && Owned(Adding(w, known, job, r))
  {
    hide Solvent, Seats;
    var n := Adding(w, known, job, r);
    assert job.id !in w.disk.attempts;
    forall j | j in w.disk.attempts ensures Charge(n.disk, j) == Charge(w.disk, j) { }
    SolventKept(w.disk, n.disk);
    SeatsShrink(cfg, w, n);
  }

  lemma AddCache(cfg: Config, w: World, known: Observations, job: Job, r: Receipt)
    requires CacheOk(cfg, w) && job.id !in w.disk.jobs
    ensures CacheOk(cfg, Adding(w, known, job, r))
  {
    var n := Adding(w, known, job, r);
    forall item | item in n.mem.cache ensures exists x :: Source(cfg, n, item, x) {
      var x :| Source(cfg, w, item, x);
      assert Source(cfg, n, item, x);
    }
  }

  lemma AddSlots(cfg: Config, d: Disk, known: Observations, job: Job, r: Receipt)
    requires SlotOrder(d) && OrderOk(d) && job.id !in d.jobs && (r.state == Queued ==> SlotFree(d, job))
    ensures SlotOrder(WithRow(d, known, job, r))
  {
    var e := WithRow(d, known, job, r);
    forall a, b | InState(e, a, Queued) && InState(e, b, Queued) && e.jobs[a].job.replaceKey.Some?
                  && SameSlot(e.jobs[a].job, e.jobs[b].job) && e.jobs[a].rowid < e.jobs[b].rowid
      ensures e.jobs[a].job.snapshot < e.jobs[b].job.snapshot
    {
      assert a != job.id;
      assert InState(d, a, Queued);
      if b != job.id { assert InState(d, b, Queued); }
    }
  }

  lemma AddCount(cfg: Config, d: Disk, known: Observations, job: Job, r: Receipt)
    requires job.id !in d.jobs
    ensures |QueuedSet(WithRow(d, known, job, r))| == |QueuedSet(d)| + if r.state == Queued then 1 else 0
  {
    var e := WithRow(d, known, job, r);
    assert QueuedSet(e) == QueuedSet(d) + if r.state == Queued then {job.id} else {};
  }

  lemma AddKeeps(cfg: Config, w: World, known: Observations, job: Job, reason: Option<Reason>, now: nat)
    requires Inv(cfg, w) && Admissible(cfg, w, job, reason)
    ensures Inv(cfg, Adding(w, known, job, NewReceipt(job, reason, now)))
  {
    hide Solvent, CacheOk, SlotOrder, Locals, Seats, OrderOk, Graph, Progress, SessionsOk, UseOk, DepsFit, SlotFree, Allowed;
    var r := NewReceipt(job, reason, now);
    AddTables(w.disk, known, job, r);
    AddGraph(w.disk, known, job, r);
    assert job.id !in w.disk.attempts;
    AddProgress(w.disk, known, job, r);
    AddLocals(cfg, w, known, job, reason, now);
    AddMoney(cfg, w, known, job, r);
    if w.up {
      AddCache(cfg, w, known, job, r);
      AddSlots(cfg, w.disk, known, job, r);
      AddCount(cfg, w.disk, known, job, r);
    }
  }

  // ---- the queue ----

  ghost predicate Distinct(ids: seq<string>) {
    forall i, j :: 0 <= i < j < |ids| ==> ids[i] != ids[j]
  }

  lemma {:induction false} InStatesSelects(d: Disk, ids: seq<string>, states: set<JobState>)
    requires Distinct(ids)
    ensures Distinct(InStates(d, ids, states))
    ensures forall x :: x in InStates(d, ids, states) <==> x in ids && x in d.jobs && StateOf(d, x) in states
  {
    if ids != [] {
      InStatesSelects(d, ids[1..], states);
      assert ids == [ids[0]] + ids[1..];
    }
  }

  lemma {:induction false} DistinctCount(ids: seq<string>, s: set<string>)
    requires Distinct(ids) && forall x :: x in ids <==> x in s
    ensures |ids| == |s|
  {
    if ids != [] {
      var n := |ids| - 1;
      assert ids == ids[..n] + [ids[n]];
      forall x ensures x in ids[..n] <==> x in s - {ids[n]} { }
      DistinctCount(ids[..n], s - {ids[n]});
    }
  }

  lemma OrderDistinct(d: Disk)
    requires OrderOk(d)
    ensures Distinct(d.order) && forall id :: id in d.jobs <==> id in d.order
  {
    forall id | id in d.jobs ensures id in d.order { assert d.order[d.jobs[id].rowid] == id; }
  }

  /** The list of queued ids has no repeats and is exactly the queued set. */
  lemma QueuedListed(d: Disk)
    requires OrderOk(d)
    ensures Distinct(QueuedIds(d)) && |QueuedIds(d)| == |QueuedSet(d)|
    ensures forall x :: x in QueuedIds(d) <==> InState(d, x, Queued)
  {
    OrderDistinct(d);
    InStatesSelects(d, d.order, {Queued});
    DistinctCount(QueuedIds(d), QueuedSet(d));
  }

  /** The replacement scan selects exactly the older jobs of the slot on which no pending job depends, and
      finds a newer one exactly if some job of the slot is as recent. */
  lemma {:induction false} ScanSelects(d: Disk, job: Job, ids: seq<string>)
    requires Distinct(ids)
    ensures var r := ScanReplace(d, job, ids);
            && Distinct(r.superseded)
            && (forall x :: x in r.superseded <==>
                  x in ids && x in d.jobs && SameSlot(d.jobs[x].job, job)
                  && d.jobs[x].job.snapshot < job.snapshot && !DependedOn(d, x))
            && (!r.newer <==>
                  forall x :: x in ids && x in d.jobs && SameSlot(d.jobs[x].job, job) ==>
                    d.jobs[x].job.snapshot < job.snapshot)
  {
    hide DependedOn, SameSlot;
    if ids != [] {
      var n := |ids| - 1;
      ScanSelects(d, job, ids[..n]);
      assert ids == ids[..n] + [ids[n]];
      assert ids[n] !in ids[..n];
    }
  }

  // ---- superseding ----

  lemma {:induction false} SupersedeKeeps(cfg: Config, w: World, ids: seq<string>)
    requires Inv(cfg, w) && Distinct(ids) && forall x :: x in ids ==> InState(w.disk, x, Queued)
    ensures Inv(cfg, w.(disk := Supersede(w.disk, ids)))
    ensures |QueuedSet(Supersede(w.disk, ids))| == |QueuedSet(w.disk)| - |ids|
    decreases |ids|
  {
    hide Inv;
    if ids == [] {
      assert w.(disk := w.disk) == w;
    } else {
      var x := ids[0];
      assert x in ids && InState(w.disk, x, Queued);
      DeadenKeeps(cfg, w, x, Superseded, ExplicitReplacement);
      var n := w.(disk := SetState(w.disk, x, Superseded, ExplicitReplacement));
      assert x in QueuedSet(w.disk);
      assert QueuedSet(n.disk) == QueuedSet(w.disk) - {x};
      forall y | y in ids[1..] ensures InState(n.disk, y, Queued) {
        assert y in ids && y != x;
      }
      SupersedeKeeps(cfg, n, ids[1..]);
      assert n.(disk := Supersede(n.disk, ids[1..])) == w.(disk := Supersede(w.disk, ids));
    }
  }

  /** Superseding one job overwrites its receipt and nothing else. */
  lemma SetStateLeaves(d: Disk, id: string)
    ensures var e := SetState(d, id, Superseded, ExplicitReplacement);
            && e.jobs.Keys == d.jobs.Keys && e.sessions == d.sessions && e.order == d.order
                && e.observations == d.observations
            && (forall x :: x in d.jobs ==>
                  e.jobs[x].job == d.jobs[x].job && (InState(e, x, Queued) ==> InState(d, x, Queued)))
            && (forall x :: x in d.jobs && x != id ==> e.jobs[x] == d.jobs[x])
  {
  }

  /** Superseding only overwrites the receipts of the jobs named. */
  lemma {:induction false} SupersedeLeaves(d: Disk, ids: seq<string>)
    ensures Supersede(d, ids).jobs.Keys == d.jobs.Keys && Supersede(d, ids).sessions == d.sessions
    ensures Supersede(d, ids).order == d.order && Supersede(d, ids).observations == d.observations
    ensures forall x :: x in d.jobs ==>
              Supersede(d, ids).jobs[x].job == d.jobs[x].job
              && (InState(Supersede(d, ids), x, Queued) ==> InState(d, x, Queued))
              && (x !in ids ==> Supersede(d, ids).jobs[x] == d.jobs[x])
    decreases |ids|
  {
    hide SetState, InState;
    if ids != [] {
      SetStateLeaves(d, ids[0]);
      SupersedeLeaves(SetState(d, ids[0], Superseded, ExplicitReplacement), ids[1..]);
    }
  }

  lemma SetStateCommutes(d: Disk, known: Observations, job: Job, r: Receipt, x: string)
    requires x != job.id
    ensures SetState(WithRow(d, known, job, r), x, Superseded, ExplicitReplacement)
            == WithRow(SetState(d, x, Superseded, ExplicitReplacement), known, job, r)
  {
    if x in d.jobs {
      var a := SetState(WithRow(d, known, job, r), x, Superseded, ExplicitReplacement);
      var b := WithRow(SetState(d, x, Superseded, ExplicitReplacement), known, job, r);
      assert a.jobs == b.jobs;
    }
  }

  /** Inserting the new row and superseding old ones may be done in either order. */
  lemma {:induction false} SupersedeCommutes(d: Disk, known: Observations, job: Job, r: Receipt, ids: seq<string>)
    requires job.id !in ids
    ensures Supersede(WithRow(d, known, job, r), ids) == WithRow(Supersede(d, ids), known, job, r)
    decreases |ids|
  {
    if ids != [] {
      SetStateCommutes(d, known, job, r, ids[0]);
      SupersedeCommutes(SetState(d, ids[0], Superseded, ExplicitReplacement), known, job, r, ids[1..]);
    }
  }

  // ---- submit ----

  lemma {:induction false} CheckedDepsFit(d: Disk, job: Job, deps: seq<string>)
    requires CheckDeps(d, job, deps).None?
    ensures forall dep :: dep in deps ==>
              dep in d.jobs && SameLine(d.jobs[dep].job, job) && SourcesWithin(d.jobs[dep].job, job)
  {
    if deps != [] {
      CheckedDepsFit(d, job, deps[1..]);
      assert deps == [deps[0]] + deps[1..];
    }
  }

  /** A job that reaches the table: new, known session, sound dependencies. */
  ghost predicate Reaches(cfg: Config, w: World, job: Job) {
    Refusal(cfg, w, job).None? && job.id !in w.disk.jobs
  }

  lemma ReachesFits(cfg: Config, w: World, job: Job)
    requires Reaches(cfg, w, job)
    ensures job.sessionId in w.disk.sessions && DepsFit(w.disk, job) && job.Valid() && !w.mem.closed
  {
    CheckedDepsFit(w.disk, job, job.dependencies);
  }

  /** What it takes to be queued. */
  lemma JudgedFits(cfg: Config, w: World, job: Job)
    requires Reaches(cfg, w, job) && OrderOk(w.disk)
    ensures job.sessionId in w.disk.sessions
    ensures var v := Judge(cfg, w, job);
            && Distinct(v.superseded) && job.id !in v.superseded
            && (forall x :: x in v.superseded ==> InState(w.disk, x, Queued) && !DependedOn(w.disk, x))
            && (v.reason.None? ==>
                  && job.epoch <= w.disk.sessions[job.sessionId].epoch && Allowed(cfg, job) != []
                  && |QueuedSet(w.disk)| - |v.superseded| < cfg.maxQueue && SlotFree(w.disk, job))
  {
    hide Refusal, Allowed;
    assert job.sessionId in w.disk.sessions by { ReachesFits(cfg, w, job); }
    QueuedListed(w.disk);
    ScanSelects(w.disk, job, QueuedIds(w.disk));
  }

  /** The world `submit` leaves when the job reaches the table. */
  function Submitted(cfg: Config, w: World, job: Job, known: Observations, upto: nat): World
    requires job.sessionId in w.disk.sessions
  {
    var v := Judge(cfg, w, job);
    var sup := if v.reason.Some? then [] else if upto <= |v.superseded| then v.superseded[..upto] else v.superseded;
    Adding(w.(disk := Supersede(w.disk, sup)), known, job, NewReceipt(job, v.reason, w.mem.now))
  }

  lemma PrefixOf(cfg: Config, w: World, job: Job, upto: nat)
    requires Reaches(cfg, w, job) && OrderOk(w.disk)
    ensures job.sessionId in w.disk.sessions
    ensures var v := Judge(cfg, w, job);
            var sup := if upto <= |v.superseded| then v.superseded[..upto] else v.superseded;
            Distinct(sup) && job.id !in sup && (forall x :: x in sup ==> InState(w.disk, x, Queued))
            && |sup| <= |v.superseded|
  {
    JudgedFits(cfg, w, job);
  }

  lemma SlotStillFree(d: Disk, ids: seq<string>, job: Job)
    requires SlotFree(d, job)
    ensures SlotFree(Supersede(d, ids), job)
  {
    SupersedeLeaves(d, ids);
    var e := Supersede(d, ids);
    if job.replaceKey.Some? {
      forall a | InState(e, a, Queued) && SameSlot(e.jobs[a].job, job) ensures e.jobs[a].job.snapshot < job.snapshot {
        assert InState(d, a, Queued) && e.jobs[a].job == d.jobs[a].job;
      }
    }
  }

  lemma DepsStillFit(d: Disk, ids: seq<string>, job: Job)
    requires DepsFit(d, job)
    ensures DepsFit(Supersede(d, ids), job)
  {
    SupersedeLeaves(d, ids);
  }

  lemma StillAdmissible(cfg: Config, w: World, job: Job, reason: Option<Reason>, sup: seq<string>)
    requires job.id !in w.disk.jobs && job.sessionId in w.disk.sessions && DepsFit(w.disk, job)
    requires reason.None? ==> job.epoch <= w.disk.sessions[job.sessionId].epoch && Allowed(cfg, job) != []
    requires w.up && reason.None? ==> |QueuedSet(Supersede(w.disk, sup))| < cfg.maxQueue && SlotFree(w.disk, job)
    ensures Admissible(cfg, w.(disk := Supersede(w.disk, sup)), job, reason)
  {
    hide DepsFit, SlotFree, Allowed;
    SupersedeLeaves(w.disk, sup);
    DepsStillFit(w.disk, sup, job);
    if w.up && reason.None? { SlotStillFree(w.disk, sup, job); }
  }

  lemma InvOrder(cfg: Config, w: World)
    requires Inv(cfg, w)
    ensures OrderOk(w.disk)
  {
  }

  /** With all replacements made, the queue has room for the new job. */
  lemma SubmittedKeeps(cfg: Config, w: World, job: Job, known: Observations)
    requires Inv(cfg, w) && w.up && Reaches(cfg, w, job)
    ensures job.sessionId in w.disk.sessions
    ensures Inv(cfg, Submitted(cfg, w, job, known, |Judge(cfg, w, job).superseded|))
  {
    hide Inv, DepsFit, SlotFree, Allowed, Refusal;
    InvOrder(cfg, w);
    ReachesFits(cfg, w, job);
    JudgedFits(cfg, w, job);
    var v := Judge(cfg, w, job);
    var sup := if v.reason.Some? then [] else v.superseded;
    assert v.superseded[..|v.superseded|] == v.superseded;
    hide Judge;
    SupersedeKeeps(cfg, w, sup);
    StillAdmissible(cfg, w, job, v.reason, sup);
    AddKeeps(cfg, w.(disk := Supersede(w.disk, sup)), known, job, v.reason, w.mem.now);
  }

  /** A crash part way through the replacements. */
  lemma SubmitCrashKeeps(cfg: Config, w: World, job: Job, known: Observations, upto: nat)
    requires Inv(cfg, w) && w.up && Reaches(cfg, w, job)
    ensures job.sessionId in w.disk.sessions
    ensures Inv(cfg, Crash(Submitted(cfg, w, job, known, upto)))
  {
    hide Inv, DepsFit, SlotFree, Allowed, Refusal, Judge, OrderOk, Supersede;
    InvOrder(cfg, w);
    ReachesFits(cfg, w, job);
    PrefixOf(cfg, w, job, upto);
    var v := Judge(cfg, w, job);
    var sup := if v.reason.Some? then [] else if upto <= |v.superseded| then v.superseded[..upto] else v.superseded;
    assert v.reason.None? ==> job.epoch <= w.disk.sessions[job.sessionId].epoch && Allowed(cfg, job) != [] by {
      JudgedFits(cfg, w, job);
    }
    CrashKeeps(cfg, w);
    SupersedeKeeps(cfg, Crash(w), sup);
    StillAdmissible(cfg, Crash(w), job, v.reason, sup);
    AddKeeps(cfg, Crash(w).(disk := Supersede(w.disk, sup)), known, job, v.reason, w.mem.now);
  }

  /** `submit` is the row and the replacements together. */
  lemma SubmitIs(cfg: Config, w: World, job: Job)
    requires Reaches(cfg, w, job) && OrderOk(w.disk)
    ensures job.sessionId in w.disk.sessions
    ensures var known := AddObservations(w.disk.observations, job.sessionId, job.observations);
            Submit(cfg, w, job).world
            == if known.None? then w else Submitted(cfg, w, job, known.value, |Judge(cfg, w, job).superseded|)
  {
    hide Refusal;
    ReachesFits(cfg, w, job);
    JudgedFits(cfg, w, job);
    var v := Judge(cfg, w, job);
    hide Judge;
    var known := AddObservations(w.disk.observations, job.sessionId, job.observations);
    if known.Some? {
      assert v.superseded[..|v.superseded|] == v.superseded;
      SupersedeCommutes(w.disk, known.value, job, NewReceipt(job, v.reason, w.mem.now), v.superseded);
    }
  }

  lemma SubmitKeeps(cfg: Config, w: World, job: Job)
    requires Inv(cfg, w) && w.up
    ensures Inv(cfg, Submit(cfg, w, job).world)
  {
    hide Inv, Refusal;
    InvOrder(cfg, w);
    if Reaches(cfg, w, job) {
      SubmitIs(cfg, w, job);
      var known := AddObservations(w.disk.observations, job.sessionId, job.observations);
      if known.Some? { SubmittedKeeps(cfg, w, job, known.value); }
    }
  }
}
