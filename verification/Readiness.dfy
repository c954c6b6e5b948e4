/** Which jobs the scan of a tick prunes, which it lists as ready, and what becomes of them. */
module Readiness {
  import opened Order
  import opened Contracts
  import opened Scheduling
  import opened Ledger
  import opened Coordinator
  import opened Placing
  import opened Invariant
  import opened SubmitSteps
  import opened Runs
  import opened Growth
  import opened Ticks

  // ---- the queue in submission order ----

  ghost predicate InRowOrder(d: Disk, ids: seq<string>) {
    && (forall i :: 0 <= i < |ids| ==> ids[i] in d.jobs)
    && (forall i, j :: 0 <= i < j < |ids| ==> d.jobs[ids[i]].rowid < d.jobs[ids[j]].rowid)
  }

  lemma {:induction false} SelectsInOrder(d: Disk, ids: seq<string>, states: set<JobState>)
    requires InRowOrder(d, ids)
    ensures InRowOrder(d, InStates(d, ids, states)) && forall x :: x in InStates(d, ids, states) ==> x in ids
  {
    if ids != [] {
      var rest := InStates(d, ids[1..], states);
      assert ids == [ids[0]] + ids[1..];
      SelectsInOrder(d, ids[1..], states);
      forall j | 0 <= j < |rest| ensures d.jobs[ids[0]].rowid < d.jobs[rest[j]].rowid {
        assert rest[j] in ids[1..];
        var k :| 0 <= k < |ids| - 1 && ids[1..][k] == rest[j];
        assert ids[k + 1] == rest[j];
      }
    }
  }

  lemma QueueInOrder(d: Disk)
    requires OrderOk(d)
    ensures InRowOrder(d, QueuedIds(d))
  {
    SelectsInOrder(d, d.order, {Queued});
  }

  // ---- one pruning ----

  lemma SameDone(d: Disk, e: Disk, deps: seq<string>)
    requires e.jobs.Keys == d.jobs.Keys
    requires forall x :: x in d.jobs ==> (Delivered(StateOf(e, x)) <==> Delivered(StateOf(d, x)))
    ensures DepsDone(e, deps) <==> DepsDone(d, deps)
  {
  }

  lemma SameAlive(d: Disk, e: Disk, deps: seq<string>)
    requires e.jobs.Keys == d.jobs.Keys
    requires forall x :: x in deps && x in d.jobs ==> StateOf(e, x) == StateOf(d, x)
    ensures DepsAlive(e, deps) <==> DepsAlive(d, deps)
  {
  }

  lemma PruneIs(w: World, id: string)
    requires !w.mem.closed && InState(w.disk, id, Queued)
    ensures Prune(w, id).disk == if DepsAlive(w.disk, w.disk.jobs[id].job.dependencies) then w.disk
                                 else SetState(w.disk, id, Rejected, DependencyFailed)
  {
    hide DepsAlive;
  }

  lemma RejectIs(d: Disk, id: string)
    requires InState(d, id, Queued)
    ensures var e := SetState(d, id, Rejected, DependencyFailed);
            && e.jobs.Keys == d.jobs.Keys && e.sessions == d.sessions && InState(e, id, Rejected)
            && (forall x :: x in d.jobs ==> e.jobs[x].job == d.jobs[x].job && e.jobs[x].rowid == d.jobs[x].rowid)
            && (forall x :: x in d.jobs && x != id ==> e.jobs[x] == d.jobs[x])
            && (forall x :: x in d.jobs ==> (Delivered(StateOf(e, x)) <==> Delivered(StateOf(d, x))))
  {
  }

  // ---- the scan ----

  ghost predicate Listed(ready: seq<Keyed<string>>, id: string) { exists k :: k in ready && k.item == id }

  /** Same jobs and sessions, and no job's success gained or lost. */
  ghost predicate Spared(v: Disk, e: Disk) {
    && e.jobs.Keys == v.jobs.Keys && e.sessions == v.sessions
    && (forall x :: x in v.jobs ==> e.jobs[x].job == v.jobs[x].job && e.jobs[x].rowid == v.jobs[x].rowid)
    && (forall x :: x in v.jobs ==> (Delivered(StateOf(e, x)) <==> Delivered(StateOf(v, x))))
  }

  /** Of a prefix of the queue exactly the jobs without a dead dependency are still queued; the others are
      rejected, and the rest of the table is as it was. */
  ghost predicate Weeded(v: Disk, e: Disk, ids: seq<string>, n: nat)
    requires n <= |ids|
  {
    && (forall x :: x in v.jobs && x !in ids[..n] ==> x in e.jobs && e.jobs[x] == v.jobs[x])
    && (forall i :: 0 <= i < n ==>
          ids[i] in v.jobs && InState(e, ids[i], if DepsAlive(e, v.jobs[ids[i]].job.dependencies) then Queued else Rejected))
  }

  /** Of a prefix of the queue exactly the jobs whose dependencies have all succeeded are listed. */
  ghost predicate Picked(v: Disk, ready: seq<Keyed<string>>, ids: seq<string>, n: nat)
    requires n <= |ids|
  {
    && (forall k :: k in ready ==> k.item in ids[..n])
    && (forall i :: 0 <= i < n ==>
          ids[i] in v.jobs && (Listed(ready, ids[i]) <==> DepsDone(v, v.jobs[ids[i]].job.dependencies)))
  }

  ghost predicate Sifted(v: Disk, s: Scan, ids: seq<string>, n: nat)
    requires n <= |ids|
  {
    && !s.world.mem.closed && Spared(v, s.world.disk) && Weeded(v, s.world.disk, ids, n) && Picked(v, s.ready, ids, n)
  }

  /** The queue as the scan finds it. */
  ghost predicate QueueOk(v: Disk, ids: seq<string>) {
    && Distinct(ids) && InRowOrder(v, ids) && Graph(v)
    && forall x :: x in ids ==> InState(v, x, Queued) && Has(v, x)
  }

  lemma PrefixGrows(ids: seq<string>, n: nat)
    requires n < |ids| && Distinct(ids)
    ensures ids[n] !in ids[..n] && forall x :: x in ids[..n + 1] <==> x in ids[..n] || x == ids[n]
  {
    assert ids[..n + 1] == ids[..n] + [ids[n]];
  }

  lemma ListedAfter(s: Scan, n: Scan, k: Keyed<string>, id: string)
    requires n.ready == s.ready || n.ready == s.ready + [k]
    ensures Listed(n.ready, id) <==> Listed(s.ready, id) || (n.ready == s.ready + [k] && k.item == id)
  {
    if Listed(s.ready, id) {
      var x :| x in s.ready && x.item == id;
      assert x in n.ready;
    }
    if n.ready == s.ready + [k] && k.item == id { assert k in n.ready; }
    if Listed(n.ready, id) {
      var x :| x in n.ready && x.item == id;
      assert x in s.ready || x == k;
    }
  }

  lemma ScanReady(cfg: Config, s: Scan, id: string)
    requires Has(s.world.disk, id)
    ensures var deps := s.world.disk.jobs[id].job.dependencies;
            ScanOne(cfg, s, id).ready
            == if DepsDone(s.world.disk, deps)
               then s.ready + [Keyed(RankOf(CandidateOf(cfg, s.world.disk, id), s.world.mem.now, cfg.mode), id)] else s.ready
  {
    hide CandidateOf, RankOf, Prune;
  }

  /** What becomes of the next job of the queue. */
  ghost predicate Next(v: Disk, d: Disk, e: Disk, id: string) {
    id in v.jobs && InState(d, id, Queued)
    && e == if DepsAlive(d, v.jobs[id].job.dependencies) then d else SetState(d, id, Rejected, DependencyFailed)
  }

  lemma NextSpares(v: Disk, d: Disk, e: Disk, id: string)
    requires Spared(v, d) && Next(v, d, e, id)
    ensures Spared(v, e)
  {
    hide DepsAlive, SetState;
    RejectIs(d, id);
  }

  /** Only job id's row differs, and it is not among the dependencies looked at. */
  lemma VerdictKept(d: Disk, e: Disk, id: string, x: string, deps: seq<string>)
    requires x in d.jobs && x != id && id !in deps && e.jobs.Keys == d.jobs.Keys
    requires forall y :: y in d.jobs && y != id ==> e.jobs[y] == d.jobs[y]
    requires InState(d, x, if DepsAlive(d, deps) then Queued else Rejected)
    ensures InState(e, x, if DepsAlive(e, deps) then Queued else Rejected)
  {
    hide DepsAlive;
    SameAlive(d, e, deps);
  }

  lemma NextIs(v: Disk, d: Disk, e: Disk, id: string)
    requires Next(v, d, e, id) && id !in v.jobs[id].job.dependencies
    ensures e.jobs.Keys == d.jobs.Keys && forall x :: x in d.jobs && x != id ==> e.jobs[x] == d.jobs[x]
    ensures InState(e, id, if DepsAlive(e, v.jobs[id].job.dependencies) then Queued else Rejected)
  {
    hide DepsAlive, SetState;
    RejectIs(d, id);
    SameAlive(d, e, v.jobs[id].job.dependencies);
  }

  /** Pruning the next job disturbs none before it: dependencies come first. */
  lemma NextWeeds(v: Disk, d: Disk, e: Disk, ids: seq<string>, n: nat)
    requires n < |ids| && QueueOk(v, ids) && Spared(v, d) && Weeded(v, d, ids, n) && Next(v, d, e, ids[n])
    ensures Weeded(v, e, ids, n + 1)
  {
    hide DepsAlive, DepsDone, Has, Spared, QueueOk, Next, InState;
    assert Distinct(ids) by { QueueDistinct(v, ids); }
    assert d.jobs.Keys == v.jobs.Keys by { SparedKeys(v, d); }
    PrefixGrows(ids, n);
    LaterIsNoDep(v, ids, n, n);
    NextIs(v, d, e, ids[n]);
    forall i | 0 <= i < n + 1
      ensures ids[i] in v.jobs
              && InState(e, ids[i], if DepsAlive(e, v.jobs[ids[i]].job.dependencies) then Queued else Rejected)
    {
      if i < n {
        LaterIsNoDep(v, ids, i, n);
        VerdictKept(d, e, ids[n], ids[i], v.jobs[ids[i]].job.dependencies);
      }
    }
  }

  lemma QueueDistinct(v: Disk, ids: seq<string>)
    requires QueueOk(v, ids)
    ensures Distinct(ids) && forall x :: x in ids ==> InState(v, x, Queued)
  {
  }

  lemma SparedKeys(v: Disk, d: Disk)
    requires Spared(v, d)
    ensures d.jobs.Keys == v.jobs.Keys
  {
  }

  lemma LaterIsNoDep(v: Disk, ids: seq<string>, i: nat, n: nat)
    requires i <= n < |ids| && QueueOk(v, ids)
    ensures ids[i] in v.jobs && ids[n] !in v.jobs[ids[i]].job.dependencies
  {
    hide SameLine, SourcesWithin;
    assert ids[n] in v.jobs[ids[i]].job.dependencies ==> EdgeOk(v, ids[i], ids[n]);
  }

  lemma ScanOnePicks(cfg: Config, v: Disk, s: Scan, ids: seq<string>, n: nat)
    requires n < |ids| && Distinct(ids) && Spared(v, s.world.disk) && Picked(v, s.ready, ids, n)
    requires Has(v, ids[n])
    ensures Picked(v, ScanOne(cfg, s, ids[n]).ready, ids, n + 1)
  {
    hide DepsDone, CandidateOf, RankOf, ScanOne, Listed;
    var d, id, next := s.world.disk, ids[n], ScanOne(cfg, s, ids[n]);
    PrefixGrows(ids, n);
    ScanReady(cfg, s, id);
    SameDone(v, d, v.jobs[id].job.dependencies);
    var k := Keyed(RankOf(CandidateOf(cfg, d, id), s.world.mem.now, cfg.mode), id);
    forall i | 0 <= i < n + 1
      ensures ids[i] in v.jobs && (Listed(next.ready, ids[i]) <==> DepsDone(v, v.jobs[ids[i]].job.dependencies))
    {
      ListedAfter(s, next, k, ids[i]);
      if i == n { NotListed(s, ids, n); }
    }
    forall x | x in next.ready ensures x.item in ids[..n + 1] { assert x in s.ready || x == k; }
  }

  lemma ScanOneSifts(cfg: Config, v: Disk, s: Scan, ids: seq<string>, n: nat)
    requires n < |ids| && QueueOk(v, ids) && Sifted(v, s, ids, n)
    ensures Sifted(v, ScanOne(cfg, s, ids[n]), ids, n + 1)
  {
    hide DepsAlive, DepsDone, SetState, Prune, ScanOne, Graph, InRowOrder, Picked;
    var d, id := s.world.disk, ids[n];
    PrefixGrows(ids, n);
    assert id in ids && InState(v, id, Queued) && InState(d, id, Queued);
    ScanOneIsPrune(cfg, s, id);
    PruneIs(s.world, id);
    PruneMem(s.world, id);
    var e := ScanOne(cfg, s, id).world.disk;
    hide Weeded, QueueOk;
    assert Next(v, d, e, id);
    NextSpares(v, d, e, id);
    NextWeeds(v, d, e, ids, n);
    QueueDistinct(v, ids);
    ScanOnePicks(cfg, v, s, ids, n);
  }

  lemma NotListed(s: Scan, ids: seq<string>, n: nat)
    requires n < |ids| && Distinct(ids) && forall k :: k in s.ready ==> k.item in ids[..n]
    ensures !Listed(s.ready, ids[n])
  {
  }

  lemma PruneMem(w: World, id: string)
    ensures Prune(w, id).mem == w.mem
  {
    hide DepsAlive;
  }

  lemma {:induction false} ScanSifts(cfg: Config, w: World, ids: seq<string>, n: nat)
    requires n <= |ids| && QueueOk(w.disk, ids) && !w.mem.closed
    ensures Sifted(w.disk, ScanQueue(cfg, w, ids[..n]), ids, n)
    decreases n
  {
    hide Sifted, ScanOne, QueueOk;
    if n == 0 {
      assert ids[..0] == [];
      NothingSifted(w, ids);
    } else {
      ScanSifts(cfg, w, ids, n - 1);
      assert ids[..n][..n - 1] == ids[..n - 1];
      ScanOneSifts(cfg, w.disk, ScanQueue(cfg, w, ids[..n - 1]), ids, n - 1);
    }
  }

  lemma NothingSifted(w: World, ids: seq<string>)
    requires !w.mem.closed
    ensures Sifted(w.disk, Scan(w, []), ids, 0)
  {
  }

  lemma QueueIsOk(cfg: Config, w: World)
    requires Inv(cfg, w)
    ensures QueueOk(w.disk, QueuedIds(w.disk)) && forall x :: x in QueuedIds(w.disk) <==> InState(w.disk, x, Queued)
  {
    hide Inv, QueuedIds, Graph;
    InvOrder(cfg, w);
    QueuedListed(w.disk);
    QueueInOrder(w.disk);
    assert Graph(w.disk) by { InvGraph(cfg, w); }
    forall x | x in QueuedIds(w.disk) ensures Has(w.disk, x) { QueuedHave(cfg, w, x); }
  }

  lemma InvGraph(cfg: Config, w: World)
    requires Inv(cfg, w)
    ensures Graph(w.disk)
  {
  }

  lemma AllSifted(cfg: Config, w: World, ranked: nat)
    requires cfg.Valid() && Inv(cfg, w) && w.up && !w.mem.closed
    ensures var v := Lapsed(w, ranked); var ids := QueuedIds(v.disk);
            Sifted(v.disk, Scanned(cfg, w, ranked), ids, |ids|) && forall x :: x in ids <==> InState(v.disk, x, Queued)
  {
    hide Inv, Grows, Exec, Sifted, QueueOk, Lapsed, ScanQueue, QueuedIds, InState, Expiries;
    var v := Lapsed(w, ranked);
    var ids := QueuedIds(v.disk);
    LapsedIsRun(cfg, w, ranked);
    QueueIsOk(cfg, v);
    ScanSifts(cfg, v, ids, |ids|);
    assert ids[..|ids|] == ids;
  }

  // ---- what a tick does with the queue ----

  /** A queued job stays queued through the scan exactly if none of its dependencies is dead after it, and
      is rejected otherwise: no chain of failures is left half pruned. */
  lemma ScanPrunes(cfg: Config, w: World, ranked: nat, id: string)
    requires cfg.Valid() && Inv(cfg, w) && w.up && !w.mem.closed && InState(Lapsed(w, ranked).disk, id, Queued)
    ensures var e := Scanned(cfg, w, ranked).world.disk;
            && id in e.jobs && e.jobs[id].job == Lapsed(w, ranked).disk.jobs[id].job
            && InState(e, id, if forall x :: x in e.jobs[id].job.dependencies ==> x in e.jobs && !Dead(StateOf(e, x))
                              then Queued else Rejected)
  {
    hide Inv, Lapsed, Scanned, QueuedIds, Listed, DepsDone;
    AllSifted(cfg, w, ranked);
    var v, e := Lapsed(w, ranked).disk, Scanned(cfg, w, ranked).world.disk;
    var ids := QueuedIds(v);
    assert id in ids;
    var i :| 0 <= i < |ids| && ids[i] == id;
    AliveIsNotDead(e, e.jobs[id].job.dependencies);
    assert InState(e, ids[i], if DepsAlive(e, v.jobs[ids[i]].job.dependencies) then Queued else Rejected);
  }

  lemma AliveIsNotDead(e: Disk, deps: seq<string>)
    ensures DepsAlive(e, deps) <==> forall x :: x in deps ==> x in e.jobs && !Dead(StateOf(e, x))
  {
    forall x | x in deps && x in e.jobs
      ensures Pending(StateOf(e, x)) || Delivered(StateOf(e, x)) <==> !Dead(StateOf(e, x))
    {
      StatesSplit(StateOf(e, x));
    }
  }

  lemma StatesSplit(s: JobState)
    ensures Pending(s) || Delivered(s) <==> !Dead(s)
  {
  }

  /** A tick gives a turn to exactly the jobs that are queued after the lapsing and whose dependencies have
      all succeeded. */
  lemma TurnsAreTheReady(cfg: Config, w: World, ranked: nat, id: string)
    requires cfg.Valid() && Inv(cfg, w) && w.up && !w.mem.closed
    ensures var v := Lapsed(w, ranked).disk;
            id in Turns(cfg, w, ranked) <==>
            InState(v, id, Queued) && forall x :: x in v.jobs[id].job.dependencies ==> x in v.jobs && Delivered(StateOf(v, x))
  {
    hide Inv, Grows, Exec, Lapsed, ScanQueue, QueuedIds, Sort, Items, InState, DepsAlive, Expiries;
    AllSifted(cfg, w, ranked);
    LapsedIsRun(cfg, w, ranked);
    var v := Lapsed(w, ranked);
    ServedList(cfg, v);
    var s, ids := Scanned(cfg, w, ranked), QueuedIds(v.disk);
    assert id in Turns(cfg, w, ranked) <==> Listed(s.ready, id);
    if InState(v.disk, id, Queued) {
      var i :| 0 <= i < |ids| && ids[i] == id;
      assert Listed(s.ready, ids[i]) <==> DepsDone(v.disk, v.disk.jobs[ids[i]].job.dependencies);
    } else {
      assert ids[..|ids|] == ids;
    }
  }

  /** After a tick a queued job whose dependencies had all succeeded is one that no endpoint can take even
      at the end of the tick. */
  lemma TickIsGreedy(cfg: Config, w: World, ranked: nat, clock: nat -> nat, id: string)
    requires cfg.Valid() && Inv(cfg, w) && w.up && !w.mem.closed
    requires InState(Lapsed(w, ranked).disk, id, Queued)
    requires DepsDone(Lapsed(w, ranked).disk, Lapsed(w, ranked).disk.jobs[id].job.dependencies)
    requires InState(Tick(cfg, w, ranked, clock).disk, id, Queued)
    ensures var n := Tick(cfg, w, ranked, clock);
            Has(n.disk, id) && forall e :: e in cfg.endpoints ==> !CanTake(cfg, n, id, e)
  {
    hide Inv, CanTake, InState, Has, Servable, Scanned, Turns, ServeAll, Lapsed;
    TurnsAreTheReady(cfg, w, ranked, id);
    TurnsServable(cfg, w, ranked);
    ServeAllIsGreedy(cfg, Scanned(cfg, w, ranked).world, Turns(cfg, w, ranked), clock, id);
  }
}
