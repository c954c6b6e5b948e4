/** A run in which a submission replaces the very job the new one depends on. */
module SelfReplacement {
  import opened Basics
  import opened Contracts
  import opened Ledger
  import opened Coordinator
  import opened Placing
  import opened Invariant
  import opened Runs
  import opened Admission
  import opened Witnesses
  import Answers

  /** A query in the replacement slot "k" of its session. */
  function Slotted(id: string, snapshot: nat, deps: seq<string>): Job {
    Witnesses.Query(id, 0, "c").(snapshot := snapshot, dependencies := deps, replaceKey := Some("k"), discardable := true)
  }

  lemma SlottedIsUsable(id: string, snapshot: nat, deps: seq<string>)
    requires snapshot < 9 && id !in deps && |deps| <= 1
    ensures Slotted(id, snapshot, deps).Valid()
    ensures Usable(Slotted(id, snapshot, deps), OpenS("c", 0), snapshot, "c")
    ensures HasEndpoint(CONFIG, Slotted(id, snapshot, deps))
  {
    var job := Slotted(id, snapshot, deps);
    assert ENDPOINT in CONFIG.endpoints && "x" in job.sites;
    assert MayServe(CONFIG, job, ENDPOINT);
  }

  /** Only job a is on record, if any. */
  ghost predicate Alone(w: World, now: nat) {
    && w.up && !w.mem.closed && w.mem.now == now && w.mem.clockId == "c"
    && w.disk.jobs.Keys <= {"a"} && "s" in w.disk.sessions && w.disk.sessions["s"] == OpenS("c", 0)
    && ("a" in w.disk.jobs ==> w.disk.jobs["a"].job == Slotted("a", 0, []))
  }

  lemma AloneCounts(w: World, now: nat)
    requires Alone(w, now)
    ensures |w.disk.jobs| < 2 && |QueuedSet(w.disk)| < 2
  {
    assert |w.disk.jobs| == |w.disk.jobs.Keys|;
    Smaller(w.disk.jobs.Keys, {"a"});
    Smaller(QueuedSet(w.disk), {"a"});
  }

  lemma FirstIsWelcome(w: World)
    requires Alone(w, 0) && w.disk.jobs == map[]
    ensures Recordable(CONFIG, w, Slotted("a", 0, [])) && Welcome(CONFIG, w, Slotted("a", 0, []))
  {
    hide Usable, HasEndpoint, Job.Valid;
    SlottedIsUsable("a", 0, []);
    AloneCounts(w, 0);
  }

  lemma SecondIsWelcome(w: World)
    requires Alone(w, 1) && InState(w.disk, "a", Queued)
    ensures Recordable(CONFIG, w, Slotted("b", 1, ["a"])) && Welcome(CONFIG, w, Slotted("b", 1, ["a"]))
    ensures Replaceable(w.disk, Slotted("b", 1, ["a"]), "a")
  {
    hide Usable, HasEndpoint, Job.Valid;
    SlottedIsUsable("b", 1, ["a"]);
    AloneCounts(w, 1);
  }

  lemma OpenedIsAlone()
    ensures CONFIG.Valid()
    ensures var o := OpenedWorld(Start(2, 0), "c"); Reachable(CONFIG, o) && Alone(o, 0) && o.disk.jobs == map[]
  {
    hide Reachable, Idle, OpenedWorld, Config.Valid;
    StartIsIdle();
    OpenReached(Start(2, 0), "c");
    OpenedIsOpened(Start(2, 0), "c");
  }

  lemma FirstIsQueued(o: World)
    requires CONFIG.Valid() && Reachable(CONFIG, o) && Alone(o, 0) && o.disk.jobs == map[]
    ensures var w := Apply(CONFIG, o, SubmitStep(Slotted("a", 0, [])));
            Reachable(CONFIG, w) && Alone(w, 0) && InState(w.disk, "a", Queued)
  {
    hide Reachable, Welcome, Recordable, Submit, Apply, Replaces, EvidenceRecorded;
    FirstIsWelcome(o);
    SubmitDecides(CONFIG, o, Slotted("a", 0, []));
    SubmitAndServeAre(o, Slotted("a", 0, []), "a");
    ReachesOn(CONFIG, o, SubmitStep(Slotted("a", 0, [])));
  }

  /** Job b is queued, depends on job a, and its own submission has superseded job a; the next scan
      rejects it. */
  lemma NewcomerIsDoomed()
    ensures CONFIG.Valid()
    ensures exists w :: Reachable(CONFIG, w) && "b" in w.disk.jobs && "a" in w.disk.jobs["b"].job.dependencies
                        && InState(w.disk, "a", Superseded) && Doomed(w.disk, "b")
                        && InState(Apply(CONFIG, w, PruneStep("b")).disk, "b", Rejected)
  {
    hide Reachable, Welcome, Recordable, Submit, Apply, Replaceable, EvidenceRecorded, Config.Valid, OpenedWorld, Doomed;
    OpenedIsAlone();
    var o := OpenedWorld(Start(2, 0), "c");
    FirstIsQueued(o);
    var w := Apply(CONFIG, o, SubmitStep(Slotted("a", 0, [])));
    TickOn(w);
    var x := Apply(CONFIG, w, ClockStep(1));
    ReachesOn(CONFIG, w, ClockStep(1));
    var job := Slotted("b", 1, ["a"]);
    SecondIsWelcome(x);
    SubmitDecides(CONFIG, x, job);
    AdmittedDoomed(CONFIG, x, job);
    SubmitAndServeAre(x, job, "a");
    ReachesOn(CONFIG, x, SubmitStep(job));
    assert job.dependencies[0] == "a";
    var n := Submit(CONFIG, x, job).world;
    assert InState(n.disk, "a", Superseded);
    DoomedIsPruned(n, "b");
  }

  lemma TickOn(w: World)
    requires CONFIG.Valid() && Alone(w, 0) && InState(w.disk, "a", Queued)
    ensures Alone(Apply(CONFIG, w, ClockStep(1)), 1) && InState(Apply(CONFIG, w, ClockStep(1)).disk, "a", Queued)
  {
  }

  lemma DoomedIsPruned(w: World, id: string)
    requires CONFIG.Valid() && w.up && !w.mem.closed && Doomed(w.disk, id)
    ensures InState(Apply(CONFIG, w, PruneStep(id)).disk, id, Rejected)
  {
    hide SetState;
    Answers.SetStateIs(w.disk, id, Rejected, DependencyFailed);
  }
}
