/** Concrete runs: a call that recovery misses until a pool is overrun, after a crash inside the failure
    handler and after an import; and a cancelled job that ends expired. */
module Witnesses {
  import opened Basics
  import opened Contracts
  import opened Scheduling
  import opened Sums
  import opened Ledger
  import opened Coordinator
  import opened TaskEnds
  import opened SubmitSteps
  import opened Runs
  import opened Guarantees
  import Cache

  const ENDPOINT := Endpoint("e", "m", "p", "x", true, 0, 1, 0)

  /** One model behind one endpoint on a pool of one slot, at no charge. */
  const CONFIG := Config("t", 2, 2, Fifo, Fastest, Cache.Limits(0, 0, 0), map["p" := 1], map["m" := "k"], [ENDPOINT], {}, true)

  function Query(id: string, epoch: nat, clock: string): Job {
    Job(id, "t", "s", epoch, "k", clock, "m", "o", Workload.Query, Historical, [], 0, 9, None, 0, 0, ["x"], [], "{}", None,
        false, false)
  }

  lemma ConfigIsValid()
    ensures CONFIG.Valid()
  {
    assert ENDPOINT in CONFIG.endpoints;
  }

  // ---- a round: restart, open, submit, serve, send ----

  /** Nothing was charged. */
  predicate Free(d: Disk) {
    forall j :: j in d.attempts ==> d.attempts[j].quote == 0 && (d.attempts[j].actual.None? || d.attempts[j].actual == Some(0))
  }

  lemma {:induction false} SumOfZeros(m: map<string, int>)
    requires forall k :: k in m ==> m[k] == 0
    ensures Sum(m) == 0
    decreases |m|
  {
    if m != map[] {
      var k := Pick(m);
      SumWithout(m, k);
      assert (m - {k}).Keys == m.Keys - {k};
      SumOfZeros(m - {k});
    }
  }

  lemma FreeCanReserve(d: Disk)
    requires Free(d) && |d.attempts| < d.maxAttempts
    ensures CanReserve(d, 0)
  {
    hide Sum;
    SumOfZeros(Knowns(d));
    SumOfZeros(Holds(d));
  }

  /** The epoch the next opening of the session will have. */
  function NextEpoch(d: Disk): nat { if "s" in d.sessions then d.sessions["s"].epoch + 1 else 0 }

  /** A database no process holds, in which recovery will find nothing to do but close sessions. */
  ghost predicate Idle(w: World) {
    && !w.up && "p" !in w.disk.quarantined && Free(w.disk) && |w.disk.attempts| < w.disk.maxAttempts && |w.disk.jobs| < 2
    && (forall id :: id in w.disk.jobs ==> !Pending(StateOf(w.disk, id)))
    && (forall j :: j in w.disk.attempts ==> w.disk.attempts[j].disposition != Reserved)
  }

  /** A process just started on it. */
  ghost predicate Booted(w: World, clock: string) {
    && w.up && w.mem == Mem(clock, 0, false, map[], map[], map[], [])
    && "p" !in w.disk.quarantined && Free(w.disk) && |w.disk.attempts| < w.disk.maxAttempts && |w.disk.jobs| < 2
    && (forall id :: id in w.disk.jobs ==> !Pending(StateOf(w.disk, id)))
    && ("s" in w.disk.sessions ==> !w.disk.sessions["s"].active)
  }

  lemma BootIdle(w: World, clock: string)
    requires Idle(w)
    ensures Booted(Boot(w, clock, 0), clock) && NextEpoch(Boot(w, clock, 0).disk) == NextEpoch(w.disk)
    ensures Boot(w, clock, 0).disk.jobs.Keys == w.disk.jobs.Keys && Boot(w, clock, 0).disk.attempts == w.disk.attempts
  {
    var n := Boot(w, clock, 0);
    forall j | j in w.disk.attempts ensures n.disk.attempts[j] == w.disk.attempts[j] { }
    assert n.disk.attempts == w.disk.attempts;
    assert n.disk.jobs.Keys == w.disk.jobs.Keys;
    assert |n.disk.jobs| == |n.disk.jobs.Keys| == |w.disk.jobs|;
  }

  function OpenS(clock: string, epoch: nat): Session { Session("t", "s", epoch, "k", clock, true, 0, None) }

  lemma OpenBooted(w: World, clock: string)
    requires Booted(w, clock)
    ensures OpenSession(CONFIG, w, "s", "k").world == w.(disk := PutSession(w.disk, OpenS(clock, NextEpoch(w.disk))))
  {
  }

  lemma QueryUsable(id: string, epoch: nat, clock: string)
    ensures Query(id, epoch, clock).InvalidReason(OpenS(clock, epoch), 0, clock).None?
    ensures Query(id, epoch, clock).Valid() && Allowed(CONFIG, Query(id, epoch, clock)) == [ENDPOINT]
    ensures KeyFor(CONFIG, Query(id, epoch, clock)).None?
  {
    var job := Query(id, epoch, clock);
    assert ForModel(CONFIG.endpoints, "m") == [ENDPOINT] by { assert [ENDPOINT][1..] == []; }
    assert AtSites([ENDPOINT], ["x"]) == [ENDPOINT] by { assert [ENDPOINT][1..] == []; assert "x" in ["x"]; }
  }

  lemma {:induction false} NoneQueued(d: Disk, ids: seq<string>)
    requires forall id :: id in d.jobs ==> StateOf(d, id) != Queued
    ensures InStates(d, ids, {Queued}) == []
  {
    if ids != [] { NoneQueued(d, ids[1..]); }
  }

  /** A session just opened, nothing queued, room for one more. */
  ghost predicate Opened(w: World, clock: string, epoch: nat) {
    && w.up && w.mem == Mem(clock, 0, false, map[], map[], map[], [])
    && "p" !in w.disk.quarantined && Free(w.disk) && |w.disk.attempts| < w.disk.maxAttempts && |w.disk.jobs| < 2
    && (forall id :: id in w.disk.jobs ==> !Pending(StateOf(w.disk, id)))
    && "s" in w.disk.sessions && w.disk.sessions["s"] == OpenS(clock, epoch)
  }

  lemma SubmitOpened(w: World, clock: string, epoch: nat, id: string)
    requires Opened(w, clock, epoch) && id !in w.disk.jobs
    ensures var job := Query(id, epoch, clock);
            Submit(CONFIG, w, job).world == Adding(w, w.disk.observations, job, NewReceipt(job, None, 0))
  {
    var job := Query(id, epoch, clock);
    QueryUsable(id, epoch, clock);
    NoneQueued(w.disk, w.disk.order);
    hide Job.Valid, Job.InvalidReason, Allowed, InStates;
    assert CheckDeps(w.disk, job, []).None?;
    assert Refusal(CONFIG, w, job).None?;
    assert Judge(CONFIG, w, job) == Verdict(None, []);
    hide Refusal, Judge;
    var r := NewReceipt(job, None, 0);
    assert AddJob(w.disk, job, r) == Some(WithRow(w.disk, w.disk.observations, job, r));
    assert Supersede(WithRow(w.disk, w.disk.observations, job, r), []) == WithRow(w.disk, w.disk.observations, job, r);
  }

  lemma PlaceQueued(w: World, clock: string, epoch: nat, id: string)
    requires Opened(w, clock, epoch) && CONFIG.Valid()
    ensures var n := Adding(w, w.disk.observations, Query(id, epoch, clock), NewReceipt(Query(id, epoch, clock), None, 0));
            Has(n.disk, id) && Place(CONFIG, n, id) == Chosen(ENDPOINT)
  {
    var job := Query(id, epoch, clock);
    var n := Adding(w, w.disk.observations, job, NewReceipt(job, None, 0));
    assert ForModel(CONFIG.endpoints, "m") == [ENDPOINT] by { assert [ENDPOINT][1..] == []; }
    assert "x" in job.sites;
    var latest := job.Latest(SessionOf(n.disk, id));
    assert Feasible(ENDPOINT, 0, latest, job.sites, CONFIG.slots, map[], map[], n.disk.quarantined);
    ChooseIsChoice([ENDPOINT], 0, latest, job.sites, CONFIG.slots, map[], map[], n.disk.quarantined, Fastest);
    hide Feasible, Choose;
    assert ENDPOINT in [ENDPOINT];
  }

  lemma ServeQueued(w: World, clock: string, epoch: nat, id: string)
    requires Opened(w, clock, epoch) && id !in w.disk.jobs && id !in w.disk.attempts && CONFIG.Valid()
    ensures var n := Adding(w, w.disk.observations, Query(id, epoch, clock), NewReceipt(Query(id, epoch, clock), None, 0));
            id in n.disk.jobs && Serve(CONFIG, n, id) == Dispatch(n, id, ENDPOINT, None)
  {
    var job := Query(id, epoch, clock);
    var n := Adding(w, w.disk.observations, job, NewReceipt(job, None, 0));
    QueryUsable(id, epoch, clock);
    PlaceQueued(w, clock, epoch, id);
    FreeCanReserve(n.disk);
    assert ReasonNow(n, id).None?;
    hide Job.InvalidReason, Place, CanReserve, Allowed, KeyFor;
    assert Servable(n, id);
    assert n.(mem := n.mem.(cache := n.mem.cache)) == n;
  }

  /** The world after restart, opening, submission and service. */
  function Served(w: World, clock: string, id: string): World {
    var o := OpenedWorld(w, clock);
    var job := Query(id, NextEpoch(w.disk), clock);
    Dispatch(Adding(o, o.disk.observations, job, NewReceipt(job, None, 0)), id, ENDPOINT, None)
  }

  function OpenedWorld(w: World, clock: string): World {
    var b := Boot(w, clock, 0);
    b.(disk := PutSession(b.disk, OpenS(clock, NextEpoch(w.disk))))
  }

  lemma OpenedIsOpened(w: World, clock: string)
    requires Idle(w)
    ensures Opened(OpenedWorld(w, clock), clock, NextEpoch(w.disk))
    ensures OpenedWorld(w, clock).disk.jobs.Keys == w.disk.jobs.Keys
    ensures OpenedWorld(w, clock).disk.attempts == w.disk.attempts
  {
    BootIdle(w, clock);
    hide Recover;
  }

  lemma OpenReached(w: World, clock: string)
    requires CONFIG.Valid() && Reachable(CONFIG, w) && Idle(w)
    ensures Reachable(CONFIG, OpenedWorld(w, clock))
  {
    hide Reachable, Idle, Booted, Boot, Config.Valid, NextEpoch, OpenSession, Apply;
    var b := Boot(w, clock, 0);
    IdleIsDown(w);
    BootIdle(w, clock);
    RestartIs(w, clock);
    ReachesOn(CONFIG, w, RestartStep(clock, 0));
    OpenBooted(b, clock);
    BootUp(w, clock);
    OpenIs(b);
    ReachesOn(CONFIG, b, OpenStep("s", "k"));
  }

  lemma RestartIs(w: World, clock: string)
    requires CONFIG.Valid() && !w.up
    ensures Apply(CONFIG, w, RestartStep(clock, 0)) == Boot(w, clock, 0)
  {
    hide Recover;
  }

  lemma OpenIs(w: World)
    requires CONFIG.Valid() && w.up
    ensures Apply(CONFIG, w, OpenStep("s", "k")) == OpenSession(CONFIG, w, "s", "k").world
  {
  }

  lemma SubmitAndServeAre(w: World, job: Job, id: string)
    requires CONFIG.Valid() && w.up
    ensures Apply(CONFIG, w, SubmitStep(job)) == Submit(CONFIG, w, job).world
    ensures Apply(CONFIG, w, ServeStep(id)) == Serve(CONFIG, w, id) && Apply(CONFIG, w, BeginStep(id)) == Begin(w, id)
  {
    hide Submit, Serve, Begin;
  }

  lemma ServeReached(o: World, clock: string, epoch: nat, id: string)
    requires CONFIG.Valid() && Reachable(CONFIG, o) && Opened(o, clock, epoch) && id !in o.disk.jobs && id !in o.disk.attempts
    ensures var job := Query(id, epoch, clock);
            Reachable(CONFIG, Dispatch(Adding(o, o.disk.observations, job, NewReceipt(job, None, 0)), id, ENDPOINT, None))
  {
    hide Reachable, Submit, Serve, Config.Valid, Apply, Free, WithRow, Dispatch, Query;
    var job := Query(id, epoch, clock);
    var q := Adding(o, o.disk.observations, job, NewReceipt(job, None, 0));
    SubmitOpened(o, clock, epoch, id);
    ServeQueued(o, clock, epoch, id);
    hide Opened;
    SubmitAndServeAre(o, job, id);
    ReachesOn(CONFIG, o, SubmitStep(job));
    SubmitAndServeAre(q, job, id);
    ReachesOn(CONFIG, q, ServeStep(id));
  }

  lemma RoundServes(w: World, clock: string, id: string)
    requires CONFIG.Valid() && Reachable(CONFIG, w) && Idle(w) && id !in w.disk.jobs && id !in w.disk.attempts
    ensures Reachable(CONFIG, Served(w, clock, id))
  {
    hide Reachable, Idle, Opened, OpenedWorld, Config.Valid, NextEpoch, Dispatch, WithRow, Query;
    OpenReached(w, clock);
    OpenedIsOpened(w, clock);
    ServeReached(OpenedWorld(w, clock), clock, NextEpoch(w.disk), id);
  }

  lemma IdleIsDown(w: World)
    requires Idle(w)
    ensures !w.up
  {
  }

  lemma BootUp(w: World, clock: string)
    ensures Boot(w, clock, 0).up
  {
  }

  /** What a round leaves before the call is sent. */
  ghost predicate Left(w: World, n: World, clock: string, id: string) {
    var job := Query(id, NextEpoch(w.disk), clock);
    && n.up && n.mem.tasks == map[id := Task(ENDPOINT, None, false)] && n.mem.now == 0 && n.mem.clockId == clock
    && n.remote == w.remote
    && n.disk.jobs.Keys == w.disk.jobs.Keys + {id} && n.disk.jobs[id].job == job
    && n.disk.jobs[id].receipt == Coordinator.Started(NewReceipt(job, None, 0), ENDPOINT, 0)
    && n.disk.attempts == w.disk.attempts[id := Attempt("p", "e", 0, None, Reserved)]
    && n.disk.maxAttempts == w.disk.maxAttempts && "p" !in n.disk.quarantined
    && "s" in n.disk.sessions && n.disk.sessions["s"] == OpenS(clock, NextEpoch(w.disk))
  }

  lemma AddedFacts(o: World, job: Job, r: Receipt)
    requires job.id !in o.disk.jobs
    ensures var q := Adding(o, o.disk.observations, job, r);
            && q.up == o.up && q.mem == o.mem && q.remote == o.remote
            && q.disk.jobs.Keys == o.disk.jobs.Keys + {job.id}
            && q.disk.jobs[job.id].job == job && q.disk.jobs[job.id].receipt == r
            && q.disk.attempts == o.disk.attempts && q.disk.maxAttempts == o.disk.maxAttempts
            && q.disk.quarantined == o.disk.quarantined && q.disk.sessions == o.disk.sessions
  {
  }

  lemma DispatchedFacts(q: World, id: string)
    requires id in q.disk.jobs
    ensures var n := Dispatch(q, id, ENDPOINT, None);
            && n.up == q.up && n.mem.tasks == q.mem.tasks[id := Task(ENDPOINT, None, false)]
            && n.mem.now == q.mem.now && n.mem.clockId == q.mem.clockId
            && n.remote == q.remote
            && n.disk.jobs.Keys == q.disk.jobs.Keys && n.disk.jobs[id].job == q.disk.jobs[id].job
            && n.disk.jobs[id].receipt == Coordinator.Started(q.disk.jobs[id].receipt, ENDPOINT, q.mem.now)
            && n.disk.attempts == q.disk.attempts[id := Attempt("p", "e", 0, None, Reserved)]
            && n.disk.maxAttempts == q.disk.maxAttempts && n.disk.quarantined == q.disk.quarantined
            && n.disk.sessions == q.disk.sessions
  {
    hide Plus;
  }

  /** The same facts, told of the world the round ends in. */
  lemma LeftFrom(w: World, o: World, job: Job, clock: string, id: string)
    requires job.id == id && job == Query(id, NextEpoch(w.disk), clock) && id !in w.disk.jobs
    requires Opened(o, clock, NextEpoch(w.disk)) && o.disk.jobs.Keys == w.disk.jobs.Keys && o.disk.attempts == w.disk.attempts
    requires o.remote == w.remote && o.disk.maxAttempts == w.disk.maxAttempts
    ensures var r := NewReceipt(job, None, 0);
            Left(w, Dispatch(Adding(o, o.disk.observations, job, r), id, ENDPOINT, None), clock, id)
  {
    var mem := Mem(clock, 0, false, map[], map[], map[], []);
    assert o.up && o.mem == mem && "p" !in o.disk.quarantined && "s" in o.disk.sessions
           && o.disk.sessions["s"] == OpenS(clock, NextEpoch(w.disk));
    hide Free, Dispatch, Adding, Query, NextEpoch, Opened, OpenS, Coordinator.Started, NewReceipt;
    var r := NewReceipt(job, None, 0);
    AddedFacts(o, job, r);
    DispatchedFacts(Adding(o, o.disk.observations, job, r), id);
  }

  lemma ServedFacts(w: World, clock: string, id: string)
    requires Idle(w) && id !in w.disk.jobs && id !in w.disk.attempts
    ensures Left(w, Served(w, clock, id), clock, id)
  {
    var job := Query(id, NextEpoch(w.disk), clock);
    assert job.id == id;
    hide Left, Idle, Opened, Dispatch, Adding, Query, NextEpoch, OpenedWorld, Boot;
    OpenedIsOpened(w, clock);
    BootKeepsRest(w, clock);
    OpenedRest(w, clock);
    LeftFrom(w, OpenedWorld(w, clock), job, clock, id);
  }

  lemma OpenedRest(w: World, clock: string)
    ensures var o, b := OpenedWorld(w, clock), Boot(w, clock, 0);
            o.remote == b.remote && o.disk.maxAttempts == b.disk.maxAttempts
  {
    hide Boot;
  }

  lemma BootKeepsRest(w: World, clock: string)
    ensures var b := Boot(w, clock, 0);
            b.remote == w.remote && b.disk.maxAttempts == w.disk.maxAttempts
  {
  }

  /** The call is sent. */
  lemma RoundSends(w: World, clock: string, id: string)
    requires CONFIG.Valid() && Reachable(CONFIG, w) && Idle(w) && id !in w.disk.jobs && id !in w.disk.attempts
    ensures id in Served(w, clock, id).mem.tasks && Reachable(CONFIG, Sent(Served(w, clock, id), id))
  {
    hide Reachable, Idle, Served, Config.Valid, NextEpoch, Apply;
    RoundServes(w, clock, id);
    ServedFacts(w, clock, id);
    var n := Served(w, clock, id);
    QueryUsable(id, NextEpoch(w.disk), clock);
    hide Job.InvalidReason;
    assert Begin(n, id) == Sent(n, id);
    SubmitAndServeAre(n, Query(id, 0, clock), id);
    ReachesOn(CONFIG, n, BeginStep(id));
  }

  // ---- an overrun pool ----

  lemma StartIsIdle()
    ensures Idle(Start(2, 0)) && CONFIG.Valid() && Reachable(CONFIG, Start(2, 0))
  {
    ConfigIsValid();
    assert Exec(CONFIG, Start(2, 0), []) == Start(2, 0);
  }

  /** The first call, in flight. */
  function FirstCall(): World
    requires "a" in Served(Start(2, 0), "c", "a").mem.tasks
  {
    Sent(Served(Start(2, 0), "c", "a"), "a")
  }

  lemma FirstCallIsOut()
    ensures "a" in Served(Start(2, 0), "c", "a").mem.tasks
    ensures CONFIG.Valid() && Reachable(CONFIG, FirstCall())
  {
    hide Reachable, Served, Idle, Config.Valid;
    StartIsIdle();
    RoundSends(Start(2, 0), "c", "a");
  }

  /** Recovery misses the first call, and a second one is sent to the same pool. */
  lemma SecondCallFollows(w: World)
    requires CONFIG.Valid() && Reachable(CONFIG, w) && Idle(w) && w.disk.jobs.Keys == {"a"} && w.disk.attempts.Keys == {"a"}
    requires w.remote == map["a" := "p"]
    ensures exists n :: Reachable(CONFIG, n) && n.up && CONFIG.slots["p"] == 1 && |Executing(n, "p")| == 2
  {
    hide Reachable, Idle, Served, Config.Valid;
    RoundSends(w, "d", "b");
    ServedFacts(w, "d", "b");
    var n := Sent(Served(w, "d", "b"), "b");
    assert n.remote == map["a" := "p", "b" := "p"];
    assert Executing(n, "p") == {"a", "b"};
  }

  const LOST_REPLY := Raised("TimeoutError", Unconfirmed)

  /** The process dies between the handler's receipt and its quarantine. */
  lemma HandlerCrashOverruns()
    ensures CONFIG.Valid()
    ensures exists n :: Reachable(CONFIG, n) && n.up && CONFIG.slots["p"] == 1 && |Executing(n, "p")| == 2
  {
    hide Reachable, Idle, Served, Config.Valid, Apply;
    StartIsIdle();
    FirstCallIsOut();
    ServedFacts(Start(2, 0), "c", "a");
    var w := FirstCall();
    ReachesOn(CONFIG, w, FinishCrash("a", LOST_REPLY, 2));
    CrashIs(w);
    CutIsIdle(w);
    SecondCallFollows(HandlerCrash(w, "a", "TimeoutError", 2));
  }

  lemma CrashIs(w: World)
    requires CONFIG.Valid() && w.up && "a" in w.mem.tasks && w.mem.tasks["a"].sent && "a" in w.disk.jobs
    ensures Apply(CONFIG, w, FinishCrash("a", LOST_REPLY, 2)) == HandlerCrash(w, "a", "TimeoutError", 2)
  {
    hide HandlerCrash;
  }

  /** One call in flight and nothing else on record. */
  ghost predicate OneOut(w: World) {
    && w.up && w.mem.tasks.Keys == {"a"} && w.mem.tasks["a"] == Task(ENDPOINT, None, true) && w.disk.jobs.Keys == {"a"}
    && w.disk.jobs["a"].receipt.jobId == "a" && StateOf(w.disk, "a") != Queued
    && w.disk.attempts == map["a" := Attempt("p", "e", 0, None, Reserved)] && w.disk.maxAttempts == 2
    && "p" !in w.disk.quarantined && w.remote == map["a" := "p"]
  }

  /** What the cut leaves on record. */
  ghost predicate CutShort(n: World) {
    && !n.up && n.remote == map["a" := "p"] && "p" !in n.disk.quarantined && n.disk.maxAttempts == 2
    && n.disk.attempts == map["a" := Attempt("p", "e", 0, None, Unresolved)]
    && n.disk.jobs.Keys == {"a"} && !Pending(StateOf(n.disk, "a"))
  }

  lemma CutFacts(w: World)
    requires OneOut(w)
    ensures CutShort(HandlerCrash(w, "a", "TimeoutError", 2))
  {
  }

  lemma CutShortIsIdle(n: World)
    requires CutShort(n)
    ensures Idle(n) && n.disk.attempts.Keys == {"a"}
  {
    assert |n.disk.jobs| == |n.disk.jobs.Keys| == 1;
  }

  lemma CutIsIdle(w: World)
    requires OneOut(w)
    ensures var n := HandlerCrash(w, "a", "TimeoutError", 2);
            Idle(n) && n.disk.jobs.Keys == {"a"} && n.disk.attempts.Keys == {"a"} && n.remote == map["a" := "p"]
  {
    hide HandlerCrash, Idle;
    CutFacts(w);
    CutShortIsIdle(HandlerCrash(w, "a", "TimeoutError", 2));
  }

  // ---- the same by an import ----

  const INVOICE := [Entry("a", 0, "invoice")]

  /** The consumer cancels, the process dies, and the charge is imported before the restart. */
  lemma ImportOverruns()
    ensures CONFIG.Valid()
    ensures exists n :: Reachable(CONFIG, n) && n.up && CONFIG.slots["p"] == 1 && |Executing(n, "p")| == 2
  {
    hide Reachable, Idle, Served, Config.Valid, Apply, Coordinator.Cancel, Import;
    StartIsIdle();
    FirstCallIsOut();
    ServedFacts(Start(2, 0), "c", "a");
    var w := FirstCall();
    var c := Coordinator.Cancel(w, "a").world;
    ImportSteps(w, c, Crash(c));
    ReachesOn(CONFIG, w, CancelStep("a"));
    ReachesOn(CONFIG, c, CrashStep);
    ReachesOn(CONFIG, Crash(c), ReconcileStep(INVOICE));
    CancelledIs(w);
    ImportIsIdle(Crash(c));
    SecondCallFollows(Import(Crash(c), INVOICE));
  }

  lemma ImportSteps(w: World, c: World, d: World)
    requires CONFIG.Valid() && w.up && c == Coordinator.Cancel(w, "a").world && d == Crash(c)
    ensures Apply(CONFIG, w, CancelStep("a")) == c && Apply(CONFIG, c, CrashStep) == d
    ensures Apply(CONFIG, d, ReconcileStep(INVOICE)) == Import(d, INVOICE)
  {
    hide Import;
    CancelIs(w);
  }

  /** No process, the first call cancelled but reserved. */
  ghost predicate CancelledOut(w: World) {
    && !w.up && w.disk.jobs.Keys == {"a"} && StateOf(w.disk, "a") == Cancelled
    && w.disk.attempts == map["a" := Attempt("p", "e", 0, None, Reserved)] && w.disk.maxAttempts == 2
    && "p" !in w.disk.quarantined && w.remote == map["a" := "p"]
  }

  lemma CancelledIs(w: World)
    requires OneOut(w) && StateOf(w.disk, "a") == Running
    ensures CancelledOut(Crash(Coordinator.Cancel(w, "a").world))
  {
  }

  lemma ImportIsIdle(w: World)
    requires CancelledOut(w)
    ensures var n := Import(w, INVOICE);
            Idle(n) && n.disk.jobs.Keys == {"a"} && n.disk.attempts.Keys == {"a"} && n.remote == map["a" := "p"]
  {
    assert Reconcilable(w.disk, INVOICE);
    assert INVOICE[..0] == [];
    assert Reconcile(w.disk, INVOICE) == Settle(w.disk, "a", Some(0));
  }

  // ---- a cancelled job that ends expired ----

  /** Cancelled before its call is sent, found past its deadline when it would be. */
  lemma CancelledEndsExpired()
    ensures CONFIG.Valid()
    ensures exists w :: Reachable(CONFIG, w) && InState(w.disk, "a", Cancelled)
                        && InState(Apply(CONFIG, w, BeginStep("a")).disk, "a", Expired)
  {
    hide Reachable, Idle, Served, Config.Valid, Coordinator.Cancel, Begin;
    StartIsIdle();
    RoundServes(Start(2, 0), "c", "a");
    ServedFacts(Start(2, 0), "c", "a");
    var w := Served(Start(2, 0), "c", "a");
    var c := Coordinator.Cancel(w, "a").world;
    var l := c.(mem := c.mem.(now := 9));
    LateSteps(w, c);
    hide Apply;
    ReachesOn(CONFIG, w, CancelStep("a"));
    ReachesOn(CONFIG, c, ClockStep(9));
    LateBegins(w);
    assert InState(Apply(CONFIG, l, BeginStep("a")).disk, "a", Expired);
  }

  lemma CancelIs(w: World)
    requires CONFIG.Valid() && w.up
    ensures Apply(CONFIG, w, CancelStep("a")) == Coordinator.Cancel(w, "a").world
  {
    hide Coordinator.Cancel;
  }

  lemma ClockIs(w: World)
    requires CONFIG.Valid() && w.up && w.mem.now == 0
    ensures Apply(CONFIG, w, ClockStep(9)) == w.(mem := w.mem.(now := 9))
  {
  }

  lemma LateSteps(w: World, c: World)
    requires CONFIG.Valid() && w.up && w.mem.now == 0 && c == Coordinator.Cancel(w, "a").world
    ensures Apply(CONFIG, w, CancelStep("a")) == c
    ensures Apply(CONFIG, c, ClockStep(9)) == c.(mem := c.mem.(now := 9))
    ensures Apply(CONFIG, c.(mem := c.mem.(now := 9)), BeginStep("a")) == Begin(c.(mem := c.mem.(now := 9)), "a")
  {
    hide Apply, Begin, Serve, Submit;
    var l := c.(mem := c.mem.(now := 9));
    CancelIs(w);
    ClockIs(c);
    SubmitAndServeAre(l, Query("a", 0, "c"), "a");
  }

  lemma LateBegins(w: World)
    requires w.up && w.mem.clockId == "c" && "a" in w.disk.jobs && w.disk.jobs["a"].job == Query("a", 0, "c")
    requires StateOf(w.disk, "a") == Running && w.mem.tasks == map["a" := Task(ENDPOINT, None, false)]
    requires "s" in w.disk.sessions && w.disk.sessions["s"] == OpenS("c", 0)
    ensures var c := Coordinator.Cancel(w, "a").world;
            InState(c.disk, "a", Cancelled) && InState(Begin(c.(mem := c.mem.(now := 9)), "a").disk, "a", Expired)
  {
    hide SettleAttempt, Minus;
  }
}
