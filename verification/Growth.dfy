/** What no step ever takes back: rows, their place in the state order, results, session epochs,
    attempts, calls, caps. */
module Growth {
  import opened Basics
  import opened Contracts
  import opened Scheduling
  import opened Ledger
  import opened Coordinator
  import opened Steps

  /** States only move forward; the dead ones come last and are one class. */
  function Level(s: JobState): nat {
    match s
    case Queued => 0
    case Running => 1
    case Succeeded => 2
    case Consumed => 3
    case _ => 4
  }

  /** A result once stored stays, and a consumed receipt is frozen. */
  predicate ReceiptGrows(a: Receipt, b: Receipt) {
    && Level(a.state) <= Level(b.state)
    && (a.prediction.Some? ==> b.prediction == a.prediction && b.computed == a.computed && b.cacheHit == a.cacheHit)
    && (a.state == Consumed ==> b == a)
  }

  predicate RowGrows(a: Row, b: Row) {
    b.job == a.job && b.rowid == a.rowid && ReceiptGrows(a.receipt, b.receipt)
  }

  /** An epoch never falls, and a closed one never reopens. */
  predicate SessionGrows(a: Session, b: Session) {
    b.epoch > a.epoch || (b.epoch == a.epoch && (b.active ==> a.active))
  }

  predicate AttemptGrows(a: Attempt, b: Attempt) {
    b.pool == a.pool && b.endpoint == a.endpoint && b.quote == a.quote
  }

  /** The receipt repeats a result that some job's backend call produced for the same work. */
  ghost predicate Sourced(cfg: Config, w: World, id: string)
    requires id in w.disk.jobs
  {
    exists j :: SourcedBy(cfg, w, id, j)
  }

  ghost predicate SourcedBy(cfg: Config, w: World, id: string, j: string)
    requires id in w.disk.jobs
  {
    && j in w.served && j in w.disk.jobs && KeyFor(cfg, w.disk.jobs[id].job).Some?
    && KeyFor(cfg, w.disk.jobs[j].job) == KeyFor(cfg, w.disk.jobs[id].job)
    && w.disk.jobs[id].receipt.prediction == Some(w.served[j].payload)
    && w.disk.jobs[id].receipt.computed == Some(w.served[j].computed)
  }

  ghost predicate RowsGrow(d: Disk, e: Disk) {
    d.order <= e.order && forall id :: id in d.jobs ==> id in e.jobs && RowGrows(d.jobs[id], e.jobs[id])
  }

  /** A job with a result gains no attempt. */
  ghost predicate AttemptsGrow(d: Disk, e: Disk) {
    && (forall id :: id in d.attempts ==> id in e.attempts && AttemptGrows(d.attempts[id], e.attempts[id]))
    && (forall id :: id in d.jobs && d.jobs[id].receipt.prediction.Some? && id in e.attempts ==> id in d.attempts)
  }

  ghost predicate SessionsGrow(d: Disk, e: Disk) {
    forall sid :: sid in d.sessions ==> sid in e.sessions && SessionGrows(d.sessions[sid], e.sessions[sid])
  }

  ghost predicate HistoryGrows(w: World, n: World) {
    && (forall id :: Used(w.calls, id) <= Used(n.calls, id))
    && (forall id :: id in w.served ==> id in n.served && n.served[id] == w.served[id])
    && w.disk.maxAttempts <= n.disk.maxAttempts && w.disk.maxMicrousd <= n.disk.maxMicrousd
  }

  predicate WasHit(d: Disk, id: string) { id in d.jobs && d.jobs[id].receipt.cacheHit }

  /** A cache hit that was not there before repeats a served result and has no attempt. */
  ghost predicate HitsGrow(cfg: Config, w: World, n: World) {
    forall id :: WasHit(n.disk, id) && !WasHit(w.disk, id) ==>
      Sourced(cfg, n, id) && id !in n.disk.attempts && n.disk.jobs[id].receipt.prediction.Some?
  }

  ghost predicate Grows(cfg: Config, w: World, n: World) {
    && RowsGrow(w.disk, n.disk) && AttemptsGrow(w.disk, n.disk) && SessionsGrow(w.disk, n.disk)
    && HistoryGrows(w, n) && HitsGrow(cfg, w, n)
  }

  lemma SourcedStays(cfg: Config, w: World, n: World, id: string)
    requires RowsGrow(w.disk, n.disk) && HistoryGrows(w, n) && id in w.disk.jobs && Sourced(cfg, w, id)
    ensures Sourced(cfg, n, id)
  {
    var j :| SourcedBy(cfg, w, id, j);
    assert RowGrows(w.disk.jobs[id], n.disk.jobs[id]) && RowGrows(w.disk.jobs[j], n.disk.jobs[j]);
    assert SourcedBy(cfg, n, id, j);
  }

  lemma RowsGrowOn(a: Disk, b: Disk, c: Disk)
    requires RowsGrow(a, b) && RowsGrow(b, c)
    ensures RowsGrow(a, c)
  {
    forall id | id in a.jobs ensures id in c.jobs && RowGrows(a.jobs[id], c.jobs[id]) {
      assert RowGrows(a.jobs[id], b.jobs[id]) && RowGrows(b.jobs[id], c.jobs[id]);
    }
  }

  lemma AttemptsGrowOn(a: Disk, b: Disk, c: Disk)
    requires RowsGrow(a, b) && AttemptsGrow(a, b) && AttemptsGrow(b, c)
    ensures AttemptsGrow(a, c)
  {
    forall id | id in a.jobs && a.jobs[id].receipt.prediction.Some? && id in c.attempts ensures id in a.attempts {
      assert RowGrows(a.jobs[id], b.jobs[id]);
      assert id in b.attempts;
    }
    forall id | id in a.attempts ensures id in c.attempts && AttemptGrows(a.attempts[id], c.attempts[id]) {
      assert AttemptGrows(a.attempts[id], b.attempts[id]) && AttemptGrows(b.attempts[id], c.attempts[id]);
    }
  }

  lemma SessionsGrowOn(a: Disk, b: Disk, c: Disk)
    requires SessionsGrow(a, b) && SessionsGrow(b, c)
    ensures SessionsGrow(a, c)
  {
    forall sid | sid in a.sessions ensures sid in c.sessions && SessionGrows(a.sessions[sid], c.sessions[sid]) {
      assert SessionGrows(a.sessions[sid], b.sessions[sid]) && SessionGrows(b.sessions[sid], c.sessions[sid]);
    }
  }

  lemma HistoryGrowsOn(a: World, b: World, c: World)
    requires HistoryGrows(a, b) && HistoryGrows(b, c)
    ensures HistoryGrows(a, c)
  {
    forall id ensures Used(a.calls, id) <= Used(c.calls, id) {
      assert Used(a.calls, id) <= Used(b.calls, id) <= Used(c.calls, id);
    }
  }

  lemma HitsGrowOn(cfg: Config, a: World, b: World, c: World)
    requires HitsGrow(cfg, a, b) && HitsGrow(cfg, b, c)
    requires RowsGrow(b.disk, c.disk) && HistoryGrows(b, c) && AttemptsGrow(b.disk, c.disk)
    ensures HitsGrow(cfg, a, c)
  {
    hide Sourced, HistoryGrows;
    forall id | WasHit(c.disk, id) && !WasHit(a.disk, id)
      ensures Sourced(cfg, c, id) && id !in c.disk.attempts && c.disk.jobs[id].receipt.prediction.Some?
    {
      if WasHit(b.disk, id) {
        SourcedStays(cfg, b, c, id);
        assert RowGrows(b.disk.jobs[id], c.disk.jobs[id]);
      }
    }
  }

  lemma GrowsOn(cfg: Config, a: World, b: World, c: World)
    requires Grows(cfg, a, b) && Grows(cfg, b, c)
    ensures Grows(cfg, a, c)
  {
    hide RowsGrow, AttemptsGrow, SessionsGrow, HistoryGrows, HitsGrow;
    RowsGrowOn(a.disk, b.disk, c.disk);
    AttemptsGrowOn(a.disk, b.disk, c.disk);
    SessionsGrowOn(a.disk, b.disk, c.disk);
    HistoryGrowsOn(a, b, c);
    HitsGrowOn(cfg, a, b, c);
  }

  // ---- the elementary writes ----

  /** Nothing on record changed. */
  lemma SameGrows(cfg: Config, w: World, n: World)
    requires n.disk.jobs == w.disk.jobs && n.disk.order == w.disk.order && n.disk.attempts == w.disk.attempts
    requires n.disk.sessions == w.disk.sessions && HistoryGrows(w, n)
    ensures Grows(cfg, w, n)
  {
    hide HistoryGrows;
    forall sid | sid in w.disk.sessions ensures SessionGrows(w.disk.sessions[sid], n.disk.sessions[sid]) { }
    forall id | id in w.disk.jobs ensures RowGrows(w.disk.jobs[id], n.disk.jobs[id]) { }
  }

  lemma WriteGrows(cfg: Config, w: World, id: string, r: Receipt)
    requires id in w.disk.jobs && ReceiptGrows(w.disk.jobs[id].receipt, r)
    requires r.cacheHit ==>
               || w.disk.jobs[id].receipt.cacheHit
               || (id !in w.disk.attempts && r.prediction.Some? && Sourced(cfg, WithReceipt(w, id, r), id))
    ensures Grows(cfg, w, WithReceipt(w, id, r))
  {
    hide Sourced;
    var n := WithReceipt(w, id, r);
    forall x | x in w.disk.jobs ensures RowGrows(w.disk.jobs[x], n.disk.jobs[x]) { }
    forall sid | sid in w.disk.sessions ensures SessionGrows(w.disk.sessions[sid], n.disk.sessions[sid]) { }
    forall x | WasHit(n.disk, x) && !WasHit(w.disk, x)
      ensures Sourced(cfg, n, x) && x !in n.disk.attempts && n.disk.jobs[x].receipt.prediction.Some?
    {
      assert x == id;
    }
  }

  lemma DeadenGrows(cfg: Config, w: World, id: string, state: JobState, reason: Reason)
    requires id in w.disk.jobs && Dead(state) && StateOf(w.disk, id) != Consumed
    ensures Grows(cfg, w, w.(disk := SetState(w.disk, id, state, reason)))
  {
    hide Grows;
    WriteGrows(cfg, w, id, w.disk.jobs[id].receipt.(state := state, reason := Some(reason)));
  }

  function WithAttempt(w: World, id: string, a: Attempt): World { w.(disk := w.disk.(attempts := w.disk.attempts[id := a])) }

  lemma AttemptWriteGrows(cfg: Config, w: World, id: string, a: Attempt)
    requires id in w.disk.attempts ==> AttemptGrows(w.disk.attempts[id], a)
    requires id !in w.disk.attempts && id in w.disk.jobs ==> w.disk.jobs[id].receipt.prediction.None?
    ensures Grows(cfg, w, WithAttempt(w, id, a))
  {
    var n := WithAttempt(w, id, a);
    forall x | x in w.disk.jobs ensures RowGrows(w.disk.jobs[x], n.disk.jobs[x]) { }
    forall sid | sid in w.disk.sessions ensures SessionGrows(w.disk.sessions[sid], n.disk.sessions[sid]) { }
  }

  lemma SettleGrows(cfg: Config, w: World, id: string, cost: Option<nat>)
    ensures Grows(cfg, w, w.(disk := Settle(w.disk, id, cost)))
  {
    hide Grows;
    if id in w.disk.attempts {
      AttemptWriteGrows(cfg, w, id, SettleAttempt(w.disk.attempts[id], cost));
    } else {
      SameGrows(cfg, w, w);
    }
  }

  lemma SessionWriteGrows(cfg: Config, w: World, sid: string, s: Session)
    requires sid in w.disk.sessions ==> SessionGrows(w.disk.sessions[sid], s)
    ensures Grows(cfg, w, w.(disk := w.disk.(sessions := w.disk.sessions[sid := s])))
  {
    var n := w.(disk := w.disk.(sessions := w.disk.sessions[sid := s]));
    forall x | x in w.disk.jobs ensures RowGrows(w.disk.jobs[x], n.disk.jobs[x]) { }
    forall x | x in w.disk.sessions ensures SessionGrows(w.disk.sessions[x], n.disk.sessions[x]) { }
  }

  lemma {:induction false} ReconcileGrows(cfg: Config, w: World, entries: seq<Entry>)
    requires forall i :: 0 <= i < |entries| ==> 0 <= entries[i].actual
    ensures Grows(cfg, w, w.(disk := Reconcile(w.disk, entries)))
  {
    hide Grows;
    if entries == [] {
      SameGrows(cfg, w, w);
      assert w.(disk := w.disk) == w;
    } else {
      var n := |entries| - 1;
      var mid := w.(disk := Reconcile(w.disk, entries[..n]));
      ReconcileGrows(cfg, w, entries[..n]);
      SettleGrows(cfg, mid, entries[n].id, Some(entries[n].actual));
      GrowsOn(cfg, w, mid, mid.(disk := Settle(mid.disk, entries[n].id, Some(entries[n].actual))));
    }
  }

  lemma RecoverRows(d: Disk)
    ensures RowsGrow(d, Recover(d)) && SessionsGrow(d, Recover(d))
  {
    var e := Recover(d);
    forall x | x in d.jobs ensures RowGrows(d.jobs[x], e.jobs[x]) { }
    forall x | x in d.sessions ensures SessionGrows(d.sessions[x], e.sessions[x]) { }
  }

  lemma RecoverAttempts(d: Disk)
    ensures AttemptsGrow(d, Recover(d))
  {
    var e := Recover(d);
    forall x | x in d.attempts ensures AttemptGrows(d.attempts[x], e.attempts[x]) { }
  }

  lemma BootGrows(cfg: Config, w: World, clockId: string, now: nat)
    ensures Grows(cfg, w, Boot(w, clockId, now))
  {
    hide RowsGrow, AttemptsGrow, SessionsGrow;
    RecoverRows(w.disk);
    RecoverAttempts(w.disk);
  }
}
