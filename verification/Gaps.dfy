/** What recovery sees of a call that may still run, when the recovery may itself be cut short: the exact
    condition after a crash inside the failure handler, and after an offline import of charges. */
module Gaps {
  import opened Basics
  import opened Contracts
  import opened Ledger
  import opened Coordinator
  import opened RecoverSteps

  // ---- recovery, cut short any number of times ----

  /** A piece of a recovery that died: some writes for one job, for one reserved attempt, or one session. */
  datatype Cut = JobCut(id: string, writes: nat) | ReservedCut(id: string, writes: nat) | SessionCut(sid: string)

  function CutOnce(d: Disk, c: Cut): Disk {
    match c
    case JobCut(id, writes) => RecoverJob(d, id, writes)
    case ReservedCut(id, writes) => RecoverReserved(d, id, writes)
    case SessionCut(sid) => CloseOne(d, sid)
  }

  function AfterCuts(d: Disk, cuts: seq<Cut>): Disk
    decreases |cuts|
  {
    if cuts == [] then d else AfterCuts(CutOnce(d, cuts[0]), cuts[1..])
  }

  /** Whatever recoveries die on the way, the one that ends has quarantined the pool. */
  ghost predicate Safe(d: Disk, pool: string) {
    forall cuts: seq<Cut> :: pool in Recover(AfterCuts(d, cuts)).quarantined
  }

  predicate HeldBy(d: Disk, j: string, pool: string) {
    j in d.attempts && d.attempts[j].pool == pool && d.attempts[j].disposition == Reserved
  }

  /** What no cut takes away: the quarantine, or an attempt still reserved. */
  ghost predicate Held(d: Disk, pool: string) { pool in d.quarantined || exists j :: HeldBy(d, j, pool) }

  /** Recovery quarantines a pool on account of this attempt. */
  predicate Flags(d: Disk, j: string, pool: string) {
    j in d.attempts && d.attempts[j].pool == pool && (WasRunning(d, j) || d.attempts[j].disposition == Reserved)
  }

  lemma RecoveryQuarantines(d: Disk, pool: string)
    ensures pool in Recover(d).quarantined <==> pool in d.quarantined || exists j :: Flags(d, j, pool)
  {
    if j :| Flags(d, j, pool) { assert j in d.attempts; }
    if pool in Recover(d).quarantined && pool !in d.quarantined {
      var j :| j in d.attempts && (WasRunning(d, j) || d.attempts[j].disposition == Reserved) && d.attempts[j].pool == pool;
      assert Flags(d, j, pool);
    }
  }

  lemma JobCutHolds(d: Disk, id: string, writes: nat, j: string, pool: string)
    requires HeldBy(d, j, pool)
    ensures HeldBy(RecoverJob(d, id, writes), j, pool) || pool in RecoverJob(d, id, writes).quarantined
  {
    hide RecoverReceipt;
  }

  lemma CutHolds(d: Disk, c: Cut, pool: string)
    requires Held(d, pool)
    ensures Held(CutOnce(d, c), pool)
  {
    hide RecoverReceipt;
    if pool !in d.quarantined {
      var j :| HeldBy(d, j, pool);
      if c.JobCut? { JobCutHolds(d, c.id, c.writes, j, pool); }
      assert HeldBy(CutOnce(d, c), j, pool) || pool in CutOnce(d, c).quarantined;
    }
  }

  lemma {:induction false} CutsHold(d: Disk, cuts: seq<Cut>, pool: string)
    requires Held(d, pool)
    ensures pool in Recover(AfterCuts(d, cuts)).quarantined
    decreases |cuts|
  {
    hide CutOnce, Recover;
    if cuts == [] {
      RecoveryQuarantines(d, pool);
      if pool !in d.quarantined {
        var j :| HeldBy(d, j, pool);
        assert Flags(d, j, pool);
      }
    } else {
      CutHolds(d, cuts[0], pool);
      CutsHold(CutOnce(d, cuts[0]), cuts[1..], pool);
    }
  }

  /** A recovery that dies after each job's first write, job after job. */
  function FirstWrites(ids: seq<string>): seq<Cut> { seq(|ids|, i requires 0 <= i < |ids| => JobCut(ids[i], 1)) }

  lemma FirstWriteForgets(d: Disk, id: string)
    ensures var e := RecoverJob(d, id, 1);
            && e.attempts == d.attempts && e.quarantined == d.quarantined && !WasRunning(e, id)
            && forall j :: WasRunning(e, j) ==> WasRunning(d, j)
  {
  }

  lemma {:induction false} FirstWritesForget(d: Disk, ids: seq<string>)
    ensures var e := AfterCuts(d, FirstWrites(ids));
            && e.attempts == d.attempts && e.quarantined == d.quarantined
            && forall j :: WasRunning(e, j) ==> WasRunning(d, j) && j !in ids
    decreases |ids|
  {
    hide RecoverJob;
    if ids != [] {
      assert FirstWrites(ids)[1..] == FirstWrites(ids[1..]);
      assert ids == [ids[0]] + ids[1..];
      FirstWriteForgets(d, ids[0]);
      FirstWritesForget(RecoverJob(d, ids[0], 1), ids[1..]);
    }
  }

  lemma {:induction false} Listed(s: set<string>) returns (ids: seq<string>)
    ensures forall x :: x in s <==> x in ids
  {
    if s == {} {
      ids := [];
    } else {
      var x :| x in s;
      var rest := Listed(s - {x});
      ids := [x] + rest;
    }
  }

  /** A pool is safe exactly when it is quarantined or holds an attempt still reserved. A receipt that
      says running is no help: recovery rewrites it before it quarantines, and may die between. */
  lemma SafeIsHeld(d: Disk, pool: string)
    ensures Safe(d, pool) <==> Held(d, pool)
  {
    hide Recover, AfterCuts;
    if Held(d, pool) {
      forall cuts: seq<Cut> ensures pool in Recover(AfterCuts(d, cuts)).quarantined { CutsHold(d, cuts, pool); }
    } else {
      var ids := Listed(d.jobs.Keys);
      FirstWritesForget(d, ids);
      var e := AfterCuts(d, FirstWrites(ids));
      RecoveryQuarantines(e, pool);
      forall j ensures !Flags(e, j, pool) {
        assert !HeldBy(d, j, pool);
      }
    }
  }

  // ---- the failure handler ----

  /** A crash inside the handler leaves the pool safe exactly when nothing was written yet, or everything
      was, or the pool is quarantined or held for another reason. */
  lemma HandlerWindow(d: Disk, id: string, pool: string, code: string, now: nat, writes: nat)
    requires id in d.jobs && HeldBy(d, id, pool)
    ensures Safe(HandlerCut(d, id, pool, code, now, writes), pool) <==>
            writes == 0 || writes >= 3 || pool in d.quarantined || exists j :: j != id && HeldBy(d, j, pool)
  {
    hide Safe, Aborted;
    var e := HandlerCut(d, id, pool, code, now, writes);
    SafeIsHeld(e, pool);
    assert writes == 0 ==> HeldBy(e, id, pool);
    forall j | j != id ensures HeldBy(e, j, pool) <==> HeldBy(d, j, pool) { }
    assert HeldBy(e, id, pool) ==> writes == 0;
  }

  /** If the next recovery runs to its end, the attempt alone may be written too while the receipt still
      says running. */
  lemma HandlerWindowUninterrupted(d: Disk, id: string, pool: string, code: string, now: nat, writes: nat)
    requires id in d.jobs && HeldBy(d, id, pool)
    ensures pool in Recover(HandlerCut(d, id, pool, code, now, writes)).quarantined <==>
            || writes == 0 || writes >= 3 || (writes == 1 && WasRunning(d, id))
            || pool in d.quarantined || exists j :: j != id && Flags(d, j, pool)
  {
    var e := HandlerCut(d, id, pool, code, now, writes);
    RecoveryQuarantines(e, pool);
    assert writes == 0 ==> Flags(e, id, pool);
    assert writes == 1 && WasRunning(d, id) ==> Flags(e, id, pool);
    forall j | j != id ensures Flags(e, j, pool) <==> Flags(d, j, pool) { }
    assert Flags(e, id, pool) ==> writes == 0 || (writes == 1 && WasRunning(d, id)) || writes >= 3;
  }

  // ---- reconciling an attempt that was in flight ----

  lemma {:induction false} ReconciledAttempts(d: Disk, entries: seq<Entry>, j: string)
    requires forall i :: 0 <= i < |entries| ==> 0 <= entries[i].actual
    ensures var e := Reconcile(d, entries);
            && e.jobs == d.jobs && e.quarantined == d.quarantined && (j in e.attempts <==> j in d.attempts)
            && (j in d.attempts ==> e.attempts[j].pool == d.attempts[j].pool)
            && (j in d.attempts ==>
                  e.attempts[j].disposition == if Named(entries, j) then Settled else d.attempts[j].disposition)
  {
    if entries != [] {
      var n := |entries| - 1;
      ReconciledAttempts(d, entries[..n], j);
      assert Named(entries, j) <==> Named(entries[..n], j) || entries[n].id == j by {
        if Named(entries[..n], j) {
          var i :| 0 <= i < n && entries[..n][i].id == j;
          assert entries[i].id == j;
        }
        if i :| 0 <= i < n && entries[i].id == j { assert entries[..n][i].id == j; }
      }
    }
  }

  /** After a reconciliation a pool is safe exactly when it was quarantined already or some attempt on it
      is still reserved and not among those reconciled. */
  lemma ReconcileWindow(d: Disk, entries: seq<Entry>, pool: string)
    requires Reconcilable(d, entries)
    ensures Safe(Reconcile(d, entries), pool) <==>
            pool in d.quarantined || exists j :: HeldBy(d, j, pool) && !Named(entries, j)
  {
    hide Safe;
    var e := Reconcile(d, entries);
    SafeIsHeld(e, pool);
    ReconciledAttempts(d, entries, "");
    forall j ensures HeldBy(e, j, pool) <==> HeldBy(d, j, pool) && !Named(entries, j) {
      ReconciledAttempts(d, entries, j);
    }
  }

  /** If the next recovery runs to its end, a receipt that says running is enough as well. */
  lemma ReconcileWindowUninterrupted(d: Disk, entries: seq<Entry>, pool: string)
    requires Reconcilable(d, entries)
    ensures pool in Recover(Reconcile(d, entries)).quarantined <==>
            || pool in d.quarantined
            || exists j :: Flags(d, j, pool) && (WasRunning(d, j) || !Named(entries, j))
  {
    var e := Reconcile(d, entries);
    RecoveryQuarantines(e, pool);
    ReconciledAttempts(d, entries, "");
    forall j ensures Flags(e, j, pool) <==> Flags(d, j, pool) && (WasRunning(d, j) || !Named(entries, j)) {
      ReconciledAttempts(d, entries, j);
    }
  }
}
