/** The store as an object (store.py): each method is one or more transactions on the tables. */
module Journal {
  import opened Basics
  import opened Contracts
  import opened Scheduling
  import opened Sums
  import opened Ledger
  import opened Coordinator
  import opened Invariant
  import opened RecoverSteps
  import opened SubmitSteps

  datatype Budget = Budget(maxAttempts: nat, maxMicrousd: nat, attempts: nat, known: int, held: int, unknown: nat, over: bool)

  datatype Reservation = Granted | Ceiling | KeyClash

  // ---- recovery, table by table ----

  function RecoveredRow(row: Row): Row { row.(receipt := RecoverReceipt(row.receipt)) }

  /** Recovery of the jobs in `done`. */
  function JobsDone(d: Disk, done: set<string>): Disk {
    d.(jobs := map x | x in d.jobs :: if x in done then RecoveredRow(d.jobs[x]) else d.jobs[x],
       attempts := map x | x in d.attempts ::
                     if x in done && WasRunning(d, x) then SettleAttempt(d.attempts[x], None) else d.attempts[x],
       quarantined := d.quarantined + set x | x in d.attempts && x in done && WasRunning(d, x) :: d.attempts[x].pool)
  }

  /** Recovery of the reserved attempts in `done`. */
  function ReservedDone(d: Disk, done: set<string>): Disk {
    d.(attempts := map x | x in d.attempts :: if x in done then d.attempts[x].(disposition := Unresolved) else d.attempts[x],
       quarantined := d.quarantined + set x | x in d.attempts && x in done :: d.attempts[x].pool)
  }

  function SessionsDone(d: Disk, done: set<string>): Disk {
    d.(sessions := map x | x in d.sessions :: if x in done then d.sessions[x].(active := false) else d.sessions[x])
  }

  lemma JobsDoneNext(d: Disk, done: set<string>, id: string)
    requires id !in done && id in d.jobs && Pending(StateOf(d, id))
    ensures RecoverJob(JobsDone(d, done), id, 3) == JobsDone(d, done + {id})
  {
    JobsNext(d, done, id);
    AttemptsNext(d, done, id);
    PoolsNext(d, done, id);
  }

  lemma JobsNext(d: Disk, done: set<string>, id: string)
    requires id !in done && id in d.jobs && Pending(StateOf(d, id))
    ensures RecoverJob(JobsDone(d, done), id, 3).jobs == JobsDone(d, done + {id}).jobs
  {
    var e := JobsDone(d, done);
    assert e.jobs[id] == d.jobs[id];
    assert RecoverJob(e, id, 3).jobs == e.jobs[id := RecoveredRow(d.jobs[id])] by { RecoverJobRow(e, id); }
    hide RecoverReceipt, RecoverJob, RecoveredRow;
    var b := JobsDone(d, done + {id}).jobs;
    forall x | x in d.jobs ensures b[x] == e.jobs[id := RecoveredRow(d.jobs[id])][x] { }
  }

  lemma RecoverJobRow(d: Disk, id: string)
    requires id in d.jobs && Pending(StateOf(d, id))
    ensures RecoverJob(d, id, 3).jobs == d.jobs[id := RecoveredRow(d.jobs[id])]
    ensures RecoverJob(d, id, 3).attempts
            == if WasRunning(d, id) && id in d.attempts
               then d.attempts[id := SettleAttempt(d.attempts[id], None)] else d.attempts
  {
    hide RecoverReceipt;
  }

  lemma AttemptsNext(d: Disk, done: set<string>, id: string)
    requires id !in done && id in d.jobs && Pending(StateOf(d, id))
    ensures RecoverJob(JobsDone(d, done), id, 3).attempts == JobsDone(d, done + {id}).attempts
  {
    var e := JobsDone(d, done);
    assert e.jobs[id] == d.jobs[id] && (id in d.attempts ==> e.attempts[id] == d.attempts[id]);
    RecoverJobRow(e, id);
    hide RecoverReceipt, RecoverJob, RecoveredRow, SettleAttempt;
    var a, b := RecoverJob(e, id, 3).attempts, JobsDone(d, done + {id}).attempts;
    forall x | x in d.attempts ensures x in a && x in b && a[x] == b[x] { }
  }

  lemma PoolsNext(d: Disk, done: set<string>, id: string)
    requires id !in done && id in d.jobs && Pending(StateOf(d, id))
    ensures RecoverJob(JobsDone(d, done), id, 3).quarantined == JobsDone(d, done + {id}).quarantined
  {
    hide RecoverReceipt;
  }

  lemma JobsDoneNone(d: Disk)
    ensures JobsDone(d, {}) == d
  {
    assert JobsDone(d, {}).jobs == d.jobs && JobsDone(d, {}).attempts == d.attempts;
    assert JobsDone(d, {}).quarantined == d.quarantined;
  }

  function ReservedIds(d: Disk): set<string> { set x | x in d.attempts && d.attempts[x].disposition == Reserved }

  function PendingSet(d: Disk): set<string> { set x | x in d.jobs && Pending(StateOf(d, x)) }

  /** The three passes together are recovery as one transformation. */
  lemma PassesAreRecover(d: Disk)
    ensures var e := JobsDone(d, PendingSet(d));
            SessionsDone(ReservedDone(e, ReservedIds(e)), d.sessions.Keys) == Recover(d)
  {
    var e := JobsDone(d, PendingSet(d));
    var f := ReservedDone(e, ReservedIds(e));
    assert f.jobs == Recover(d).jobs by { PassesJobs(d); }
    assert f.attempts == Recover(d).attempts by { PassesAttempts(d); }
    assert f.quarantined == Recover(d).quarantined by { PassesPools(d); }
    assert SessionsDone(f, d.sessions.Keys).sessions == Recover(d).sessions;
  }

  lemma PassesJobs(d: Disk)
    ensures JobsDone(d, PendingSet(d)).jobs == Recover(d).jobs
  {
    forall x | x in d.jobs ensures JobsDone(d, PendingSet(d)).jobs[x] == Recover(d).jobs[x] { }
  }

  lemma PassesAttempts(d: Disk)
    ensures var e := JobsDone(d, PendingSet(d)); ReservedDone(e, ReservedIds(e)).attempts == Recover(d).attempts
  {
    var e := JobsDone(d, PendingSet(d));
    var f := ReservedDone(e, ReservedIds(e));
    forall x | x in d.attempts ensures f.attempts[x] == Recover(d).attempts[x] {
      assert WasRunning(d, x) ==> x in PendingSet(d);
    }
  }

  lemma PassesPools(d: Disk)
    ensures var e := JobsDone(d, PendingSet(d)); ReservedDone(e, ReservedIds(e)).quarantined == Recover(d).quarantined
  {
    var e := JobsDone(d, PendingSet(d));
    var f, r := ReservedDone(e, ReservedIds(e)).quarantined, Recover(d).quarantined;
    forall p | p in r ensures p in f {
      if p !in d.quarantined {
        var x :| x in d.attempts && (WasRunning(d, x) || d.attempts[x].disposition == Reserved) && d.attempts[x].pool == p;
        if WasRunning(d, x) {
          assert x in PendingSet(d);
        } else {
          assert x in ReservedIds(e) && e.attempts[x].pool == p;
        }
      }
    }
    forall p | p in f ensures p in r {
      if p !in e.quarantined {
        var x :| x in e.attempts && x in ReservedIds(e) && e.attempts[x].pool == p;
        assert d.attempts[x].disposition == Reserved && d.attempts[x].pool == p;
      }
    }
  }

  /** What the rows still to be added up hold, or have settled for. */
  ghost predicate Left(d: Disk, rest: set<string>, left: map<string, int>, held: bool) {
    left.Keys == rest && forall x :: x in rest ==> x in d.attempts && left[x] == Part(d.attempts[x], held)
  }

  function Part(a: Attempt, held: bool): int {
    if held then (if a.actual.None? then a.quote else 0) else if a.actual.Some? then a.actual.value else 0
  }

  lemma LeftNext(d: Disk, rest: set<string>, left: map<string, int>, j: string, held: bool)
    requires j in rest && Left(d, rest, left, held)
    ensures Left(d, rest - {j}, left - {j}, held) && Sum(left) == Part(d.attempts[j], held) + Sum(left - {j})
  {
    SumWithout(left, j);
  }

  lemma LeftNone(left: map<string, int>)
    requires left.Keys == {}
    ensures Sum(left) == 0
  {
    assert left == map[];
  }

  ghost function Unresolveds(attempts: map<string, Attempt>, among: set<string>): set<string> {
    set x | x in attempts && x in among && attempts[x].disposition == Unresolved
  }

  lemma UnknownNext(attempts: map<string, Attempt>, done: set<string>, j: string)
    requires j !in done && j in attempts
    ensures |Unresolveds(attempts, done + {j})|
            == |Unresolveds(attempts, done)| + if attempts[j].disposition == Unresolved then 1 else 0
  {
    assert Unresolveds(attempts, done + {j})
           == Unresolveds(attempts, done) + if attempts[j].disposition == Unresolved then {j} else {};
  }

  /** Receipts are filed under their own job. */
  ghost predicate Filed(d: Disk) { forall id :: id in d.jobs ==> d.jobs[id].receipt.jobId == id }

  /** The recovery list names each pending job once. */
  lemma PendingOnce(d: Disk, ids: seq<string>)
    requires OrderOk(d) && ids == InStates(d, d.order, {Queued, Running})
    ensures Distinct(ids) && forall x :: x in ids <==> x in PendingSet(d)
  {
    OrderDistinct(d);
    InStatesSelects(d, d.order, {Queued, Running});
  }

  lemma ReservedDoneNext(d: Disk, done: set<string>, id: string)
    requires id !in done && id in d.attempts && d.attempts[id].disposition == Reserved
    ensures RecoverReserved(ReservedDone(d, done), id, 2) == ReservedDone(d, done + {id})
  {
    var a, b := RecoverReserved(ReservedDone(d, done), id, 2), ReservedDone(d, done + {id});
    assert a.attempts == b.attempts;
    assert a.quarantined == b.quarantined;
  }

  lemma SessionsDoneNext(d: Disk, done: set<string>, sid: string)
    requires sid in d.sessions
    ensures CloseOne(SessionsDone(d, done), sid) == SessionsDone(d, done + {sid})
  {
    assert CloseOne(SessionsDone(d, done), sid).sessions == SessionsDone(d, done + {sid}).sessions;
  }

  lemma NoneDone(d: Disk)
    ensures ReservedDone(d, {}) == d && SessionsDone(d, {}) == d
  {
    assert ReservedDone(d, {}).attempts == d.attempts && ReservedDone(d, {}).quarantined == d.quarantined;
    assert SessionsDone(d, {}).sessions == d.sessions;
  }

  class Store {
    var sessions: map<string, Session>
    var jobs: map<string, Row>
    var order: seq<string>
    var observations: map<(string, string), Observation>
    var attempts: map<string, Attempt>
    var quarantines: set<string>
    var maxAttempts: nat
    var maxMicrousd: nat

    function Tables(): Disk
      reads this
    {
      Disk(sessions, jobs, order, observations, attempts, quarantines, maxAttempts, maxMicrousd)
    }

    constructor (maxAttempts: nat, maxMicrousd: nat)
      ensures Tables() == EmptyDisk(maxAttempts, maxMicrousd)
    {
      sessions, jobs, order, observations, attempts, quarantines := map[], map[], [], map[], map[], {};
      this.maxAttempts, this.maxMicrousd := maxAttempts, maxMicrousd;
    }

    method PutSession(s: Session)
      modifies this
      ensures Tables() == Ledger.PutSession(old(Tables()), s)
    {
      sessions := sessions[s.id := s];
    }

    /** `jobs(tenant, states)`. */
    method ListJobs(states: set<JobState>) returns (ids: seq<string>)
      ensures ids == InStates(Tables(), order, states)
    {
      ids := [];
      var i := |order|;
      while i > 0
        invariant 0 <= i <= |order|
        invariant ids == InStates(Tables(), order[i..], states)
      {
        i := i - 1;
        assert order[i..][1..] == order[i + 1..];
        if order[i] in jobs && jobs[order[i]].receipt.state in states {
          ids := [order[i]] + ids;
        }
      }
      assert order[0..] == order;
    }

    /** All observations and the row go in together; a source id reused for other content refuses both. */
    method AddJob(job: Job, receipt: Receipt) returns (ok: bool)
      modifies this
      ensures ok == Ledger.AddJob(old(Tables()), job, receipt).Some?
      ensures Tables() == if ok then Ledger.AddJob(old(Tables()), job, receipt).value else old(Tables())
    {
      var known := observations;
      var i := 0;
      while i < |job.observations|
        invariant 0 <= i <= |job.observations| && unchanged(this)
        invariant AddObservations(known, job.sessionId, job.observations[i..])
                  == AddObservations(observations, job.sessionId, job.observations)
      {
        var key := (job.sessionId, job.observations[i].id);
        assert job.observations[i..][1..] == job.observations[i + 1..];
        if key in known && known[key] != job.observations[i].Identity() {
          return false;
        }
        known := if key in known then known else known[key := job.observations[i].Identity()];
        i := i + 1;
      }
      jobs, order, observations := jobs[job.id := Row(job, receipt, |order|)], order + [job.id], known;
      ok := true;
    }

    method SaveReceipt(r: Receipt)
      modifies this
      ensures Tables() == SetReceipt(old(Tables()), r.jobId, r)
    {
      if r.jobId in jobs {
        jobs := jobs[r.jobId := jobs[r.jobId].(receipt := r)];
      }
    }

    /** Totals over the attempts table. */
    method ReadBudget() returns (b: Budget)
      ensures b.maxAttempts == maxAttempts && b.maxMicrousd == maxMicrousd && b.attempts == |attempts|
      ensures b.known == Known(Tables()) && b.held == Held(Tables())
      ensures b.unknown == |Unresolveds(attempts, attempts.Keys)|
      ensures b.over == (Known(Tables()) + Held(Tables()) > maxMicrousd)
    {
      hide Known, Held, Unresolveds;
      var held := SumHeld();
      var known := SumKnown();
      var unknown := CountUnknown();
      b := Budget(maxAttempts, maxMicrousd, |attempts|, known, held, unknown, known + held > maxMicrousd);
    }

    method SumHeld() returns (held: int)
      ensures held == Held(Tables())
    {
      held := 0;
      var rest := attempts.Keys;
      ghost var left := Holds(Tables());
      hide Sum;
      while rest != {}
        invariant rest <= attempts.Keys && Left(Tables(), rest, left, true)
        invariant held + Sum(left) == Held(Tables())
        decreases |rest|
      {
        var j :| j in rest;
        LeftNext(Tables(), rest, left, j, true);
        if attempts[j].actual.None? { held := held + attempts[j].quote; }
        rest, left := rest - {j}, left - {j};
      }
      LeftNone(left);
    }

    method SumKnown() returns (known: int)
      ensures known == Known(Tables())
    {
      known := 0;
      var rest := attempts.Keys;
      ghost var left := Knowns(Tables());
      hide Sum;
      while rest != {}
        invariant rest <= attempts.Keys && Left(Tables(), rest, left, false)
        invariant known + Sum(left) == Known(Tables())
        decreases |rest|
      {
        var j :| j in rest;
        LeftNext(Tables(), rest, left, j, false);
        if attempts[j].actual.Some? { known := known + attempts[j].actual.value; }
        rest, left := rest - {j}, left - {j};
      }
      LeftNone(left);
    }

    method CountUnknown() returns (unknown: nat)
      ensures unknown == |Unresolveds(attempts, attempts.Keys)|
    {
      unknown := 0;
      var rest := attempts.Keys;
      ghost var done: set<string> := {};
      while rest != {}
        invariant rest + done == attempts.Keys && rest !! done
        invariant unknown == |Unresolveds(attempts, done)|
        decreases |rest|
      {
        var j :| j in rest;
        UnknownNext(attempts, done, j);
        if attempts[j].disposition == Unresolved { unknown := unknown + 1; }
        rest, done := rest - {j}, done + {j};
      }
      assert done == attempts.Keys;
    }

    /** Admission is decided on the budget as it stands; the row is inserted under the job's key. */
    method Reserve(id: string, ep: Endpoint) returns (r: Reservation)
      modifies this
      ensures r == if !CanReserve(old(Tables()), ep.reserve) then Ceiling
                   else if id in old(attempts) then KeyClash else Granted
      ensures Tables() == if r == Granted then Ledger.Reserve(old(Tables()), id, ep) else old(Tables())
    {
      var b := ReadBudget();
      if b.attempts >= b.maxAttempts || b.known + b.held + ep.reserve > b.maxMicrousd {
        return Ceiling;
      }
      if id in attempts {
        return KeyClash;
      }
      attempts := attempts[id := Attempt(ep.pool, ep.id, ep.reserve, None, Reserved)];
      r := Granted;
    }

    method Settle(id: string, cost: Option<nat>)
      modifies this
      ensures Tables() == Ledger.Settle(old(Tables()), id, cost)
    {
      if id in attempts {
        attempts := attempts[id := attempts[id].(actual := cost, disposition := if cost.Some? then Settled else Unresolved)];
      }
    }

    /** Every entry is validated before any is applied. */
    method ReconcileMany(entries: seq<Entry>) returns (ok: bool)
      modifies this
      ensures ok == Reconcilable(old(Tables()), entries)
      ensures Tables() == if ok then Reconcile(old(Tables()), entries) else old(Tables())
    {
      var seen: set<string> := {};
      for i := 0 to |entries|
        invariant unchanged(this)
        invariant seen == set k | 0 <= k < i :: entries[k].id
        invariant forall k :: 0 <= k < i ==> WellFormed(entries[k])
        invariant forall k, m :: 0 <= k < m < i ==> entries[k].id != entries[m].id
      {
        if !WellFormed(entries[i]) || entries[i].id in seen {
          assert entries[i].id in seen ==> exists k :: 0 <= k < i && entries[k].id == entries[i].id;
          return false;
        }
        seen := seen + {entries[i].id};
      }
      for i := 0 to |entries|
        invariant unchanged(this)
        invariant forall k :: 0 <= k < i ==> entries[k].id in attempts && attempts[entries[k].id].actual.None?
      {
        if entries[i].id !in attempts || attempts[entries[i].id].actual.Some? {
          return false;
        }
      }
      ghost var d := Tables();
      for i := 0 to |entries|
        invariant Tables() == Reconcile(d, entries[..i])
      {
        assert entries[..i + 1][..i] == entries[..i];
        Settle(entries[i].id, Some(entries[i].actual));
      }
      assert entries[..|entries|] == entries;
      ok := true;
    }

    method Quarantine(pool: string)
      modifies this
      ensures Tables() == old(Tables()).(quarantined := old(quarantines) + {pool})
    {
      quarantines := quarantines + {pool};
    }

    method ReleasePool(pool: string, evidence: string) returns (ok: bool)
      modifies this
      ensures ok == (evidence != "")
      ensures Tables() == if ok then old(Tables()).(quarantined := old(quarantines) - {pool}) else old(Tables())
    {
      if evidence == "" {
        return false;
      }
      quarantines := quarantines - {pool};
      ok := true;
    }

    method ExtendBudget(attempts: nat, money: nat, approval: string) returns (ok: bool)
      modifies this
      ensures ok == Extend(old(Tables()), attempts, money, approval).Ok?
      ensures Tables() == if ok then Extend(old(Tables()), attempts, money, approval).value else old(Tables())
    {
      if approval == "" || attempts < maxAttempts || money < maxMicrousd {
        return false;
      }
      maxAttempts, maxMicrousd := attempts, money;
      ok := true;
    }

    /** Pending jobs, then reserved attempts, then sessions; every write is its own transaction. */
    method Recover()
      requires OrderOk(Tables()) && Filed(Tables())
      modifies this
      ensures Tables() == Ledger.Recover(old(Tables()))
    {
      ghost var d := Tables();
      RecoverJobs();
      RecoverReservations();
      CloseSessions();
      PassesAreRecover(d);
    }

    method RecoverJobs()
      requires OrderOk(Tables()) && Filed(Tables())
      modifies this
      ensures Tables() == JobsDone(old(Tables()), PendingSet(old(Tables())))
    {
      hide OrderOk;
      ghost var d := Tables();
      var ids := ListJobs({Queued, Running});
      PendingOnce(d, ids);
      JobsDoneNone(d);
      ghost var done: set<string> := {};
      for i := 0 to |ids|
        invariant forall x :: x in done <==> x in ids[..i]
        invariant Tables() == JobsDone(d, done)
      {
        assert ids[i] in ids && ids[i] !in done;
        JobsDoneNext(d, done, ids[i]);
        RecoverOne(ids[i]);
        done := done + {ids[i]};
      }
      assert ids[..|ids|] == ids;
      assert done == PendingSet(d);
    }

    method RecoverOne(id: string)
      requires id in jobs && Pending(jobs[id].receipt.state) && jobs[id].receipt.jobId == id
      modifies this
      ensures Tables() == RecoverJob(old(Tables()), id, 3)
    {
      var r := jobs[id].receipt;
      SaveReceipt(r.(state := if r.state == Running then Unknown else Cancelled, reason := Some(CoordinatorRestart)));
      if r.state == Running && id in attempts {
        Quarantine(attempts[id].pool);
        Settle(id, None);
      }
    }

    /** A receipt no longer running can still have remote compute in flight. */
    method RecoverReservations()
      modifies this
      ensures Tables() == ReservedDone(old(Tables()), ReservedIds(old(Tables())))
    {
      hide RecoverReserved;
      ghost var d := Tables();
      NoneDone(d);
      var rest := set x | x in attempts && attempts[x].disposition == Reserved;
      ghost var done: set<string> := {};
      while rest != {}
        invariant rest + done == ReservedIds(d) && rest !! done
        invariant Tables() == ReservedDone(d, done)
        decreases |rest|
      {
        var id :| id in rest;
        assert attempts[id] == d.attempts[id];
        ReservedDoneNext(d, done, id);
        GiveUp(id);
        rest, done := rest - {id}, done + {id};
      }
    }

    method GiveUp(id: string)
      requires id in attempts && attempts[id].disposition == Reserved
      modifies this
      ensures Tables() == RecoverReserved(old(Tables()), id, 2)
    {
      Quarantine(attempts[id].pool);
      attempts := attempts[id := attempts[id].(disposition := Unresolved)];
    }

    method CloseSessions()
      modifies this
      ensures Tables() == SessionsDone(old(Tables()), old(sessions).Keys)
    {
      hide CloseOne;
      ghost var d := Tables();
      NoneDone(d);
      var rest := sessions.Keys;
      ghost var done: set<string> := {};
      while rest != {}
        invariant rest + done == d.sessions.Keys && rest !! done
        invariant Tables() == SessionsDone(d, done)
        decreases |rest|
      {
        var sid :| sid in rest;
        SessionsDoneNext(d, done, sid);
        CloseSession(sid);
        rest, done := rest - {sid}, done + {sid};
      }
    }

    method CloseSession(sid: string)
      requires sid in sessions
      modifies this
      ensures Tables() == CloseOne(old(Tables()), sid)
    {
      sessions := sessions[sid := sessions[sid].(active := false)];
    }
  }
}
