/** The invariant of the replay loop: how queue, heap, rows and cursor fit together, and that
    every phase of an iteration keeps it. */
module ReplayCore {
  import opened Basics
  import opened Order
  import opened Replay

  type Requests = map<string, Request>

  /** `reqs` finds the arrivals by id, and arrivals come in order of release. */
  ghost predicate Ready(u: Setup, reqs: Requests) {
    && 1 <= u.slots
    && (forall r :: r in u.arrivals ==> r.id in reqs && reqs[r.id] == r)
    && (forall id :: id in reqs ==> reqs[id].id == id && reqs[id].Valid() && reqs[id] in u.arrivals)
    && (forall i, j :: 0 <= i < j < |u.arrivals| ==> u.arrivals[i].id != u.arrivals[j].id)
    && (forall i, j :: 0 <= i < j < |u.arrivals| ==> u.arrivals[i].release <= u.arrivals[j].release)
  }

  ghost predicate DistinctIds(queue: seq<Request>) {
    forall i, j :: 0 <= i < j < |queue| ==> queue[i].id != queue[j].id
  }

  ghost predicate DistinctRuns(active: seq<Run>) {
    forall i, j :: 0 <= i < j < |active| ==> active[i].id != active[j].id
  }

  ghost predicate Ascending(active: seq<Run>) {
    forall i, j :: 0 <= i < j < |active| ==> active[i].finish <= active[j].finish
  }

  function Started(s: Sim, id: string): Option<nat> {
    if id in s.rows then s.rows[id].started else None
  }

  ghost predicate Began(r: Request, row: Row, now: nat) {
    row.started.Some? && r.release <= row.started.value <= now
  }

  /** The row of a released request says where the request is. */
  ghost predicate RowOk(r: Request, row: Row, now: nat, queue: seq<Request>, active: seq<Run>) {
    && row.id == r.id && row.session == r.session && row.workload == r.workload
    && row.release == r.release && row.capture == r.capture && row.latest == r.Latest()
    && match row.phase
       case Queued => row.started.None? && row.completed.None? && r in queue
       case Running => Began(r, row, now) && row.completed.None? && Run(row.started.value + r.service, r.id) in active
       case ExpiredUndispatched => row.started.None? && row.completed.None? && r.Latest() <= now
       case InTime => Began(r, row, now) && Ended(r, row, now) && row.completed.value < r.Latest()
       case Late => Began(r, row, now) && Ended(r, row, now) && row.completed.value >= r.Latest()
  }

  ghost predicate Ended(r: Request, row: Row, now: nat)
    requires row.started.Some?
  {
    row.completed == Some(row.started.value + r.service) && row.completed.value <= now
  }

  ghost predicate CursorOk(u: Setup, s: Sim) {
    && s.cursor <= |u.arrivals|
    && forall i :: 0 <= i < |u.arrivals| ==> (u.arrivals[i].id in s.rows <==> i < s.cursor)
  }

  ghost predicate RowsOk(reqs: Requests, s: Sim) {
    forall id :: id in s.rows ==> id in reqs && reqs[id].id == id && RowOk(reqs[id], s.rows[id], s.now, s.queue, s.active)
  }

  ghost predicate QueueOk(reqs: Requests, s: Sim) {
    forall q :: q in s.queue ==> q.id in reqs && reqs[q.id] == q && q.id in s.rows && s.rows[q.id].phase == Queued
  }

  ghost predicate ActiveOk(s: Sim) {
    forall a :: a in s.active ==> a.id in s.rows && s.rows[a.id].phase == Running
  }

  ghost predicate Shape(u: Setup, s: Sim) {
    DistinctIds(s.queue) && DistinctRuns(s.active) && Ascending(s.active) && |s.active| <= u.slots
  }

  ghost predicate Core(u: Setup, reqs: Requests, s: Sim) {
    CursorOk(u, s) && RowsOk(reqs, s) && QueueOk(reqs, s) && ActiveOk(s) && Shape(u, s)
  }

  /** No start already recorded changes, and new starts happen at the present instant. */
  ghost predicate Extends(s: Sim, t: Sim) {
    && s.now == t.now
    && forall id :: Started(t, id) == Started(s, id) || (Started(s, id).None? && Started(t, id) == Some(s.now))
  }

  // ---- queue removal and heap insertion ----

  lemma {:induction false} RemoveRemoves(queue: seq<Request>, id: string)
    requires DistinctIds(queue)
    ensures DistinctIds(Remove(queue, id))
    ensures forall q :: q in Remove(queue, id) <==> q in queue && q.id != id
  {
    if queue != [] {
      assert queue == [queue[0]] + queue[1..];
      RemoveRemoves(queue[1..], id);
    }
  }

  lemma {:induction false} RemoveShortens(queue: seq<Request>, r: Request)
    requires r in queue
    ensures |Remove(queue, r.id)| == |queue| - 1
  {
    if queue[0].id != r.id { RemoveShortens(queue[1..], r); }
  }

  lemma {:induction false} PushInserts(active: seq<Run>, r: Run)
    ensures |Push(active, r)| == |active| + 1
    ensures forall a :: a in Push(active, r) <==> a == r || a in active
  {
    if active != [] && !(r.finish < active[0].finish || (r.finish == active[0].finish && StrLess(r.id, active[0].id))) {
      assert active == [active[0]] + active[1..];
      PushInserts(active[1..], r);
    }
  }

  lemma {:induction false} PushKeepsOrder(active: seq<Run>, r: Run)
    requires Ascending(active) && DistinctRuns(active)
    requires forall a :: a in active ==> a.id != r.id
    ensures Ascending(Push(active, r)) && DistinctRuns(Push(active, r))
  {
    if active != [] && !(r.finish < active[0].finish || (r.finish == active[0].finish && StrLess(r.id, active[0].id))) {
      PushKeepsOrder(active[1..], r);
      PushInserts(active[1..], r);
      var p := Push(active[1..], r);
      forall j | 0 <= j < |p| ensures active[0].finish <= p[j].finish && active[0].id != p[j].id {
        assert p[j] in p;
      }
    }
  }

  // ---- phases ----

  /** The heap entry of a running row is the one with its id. */
  lemma RunOf(reqs: Requests, s: Sim, run: Run)
    requires RowsOk(reqs, s) && ActiveOk(s) && DistinctRuns(s.active) && run in s.active
    ensures run.id in s.rows && run.id in reqs && s.rows[run.id].phase == Running && s.rows[run.id].started.Some?
    ensures run.finish == s.rows[run.id].started.value + reqs[run.id].service
  {
    assert RowOk(reqs[run.id], s.rows[run.id], s.now, s.queue, s.active);
    var other := Run(s.rows[run.id].started.value + reqs[run.id].service, run.id);
    assert other in s.active;
  }

  lemma PopRows(reqs: Requests, s: Sim)
    requires RowsOk(reqs, s) && ActiveOk(s) && DistinctRuns(s.active) && s.active != [] && s.active[0].finish <= s.now
    ensures RowsOk(reqs, PopOne(s)) && Extends(s, PopOne(s)) && PopOne(s).rows.Keys == s.rows.Keys
  {
    var run, t := s.active[0], PopOne(s);
    assert s.active == [run] + t.active;
    RunOf(reqs, s, run);
    forall id | id in t.rows
      ensures id in reqs && reqs[id].id == id && RowOk(reqs[id], t.rows[id], t.now, t.queue, t.active) {
      assert RowOk(reqs[id], s.rows[id], s.now, s.queue, s.active);
    }
  }

  lemma PopRest(u: Setup, reqs: Requests, s: Sim)
    requires QueueOk(reqs, s) && ActiveOk(s) && Shape(u, s) && s.active != []
    ensures QueueOk(reqs, PopOne(s)) && ActiveOk(PopOne(s)) && Shape(u, PopOne(s))
  {
    var t := PopOne(s);
    assert s.active == [s.active[0]] + t.active;
    forall a | a in t.active ensures a.id in t.rows && t.rows[a.id].phase == Running {
      assert a in s.active && a.id != s.active[0].id;
    }
  }

  lemma PopKeeps(u: Setup, reqs: Requests, s: Sim)
    requires Core(u, reqs, s) && s.active != [] && s.active[0].finish <= s.now
    ensures Core(u, reqs, PopOne(s)) && Extends(s, PopOne(s))
  {
    assert DistinctRuns(s.active);
    PopRows(reqs, s);
    PopRest(u, reqs, s);
    hide RowsOk, QueueOk, ActiveOk, Shape, Extends;
  }

  lemma {:induction false} CompleteKeeps(u: Setup, reqs: Requests, s: Sim)
    requires Core(u, reqs, s)
    ensures Core(u, reqs, Complete(s)) && Extends(s, Complete(s))
    decreases |s.active|
  {
    if s.active != [] && s.active[0].finish <= s.now {
      PopKeeps(u, reqs, s);
      CompleteKeeps(u, reqs, PopOne(s));
    }
  }

  lemma {:induction false} CompleteDoes(s: Sim)
    requires Ascending(s.active)
    ensures forall a :: a in Complete(s).active ==> a.finish > s.now
    ensures Complete(s).queue == s.queue && Complete(s).cursor == s.cursor && Complete(s).now == s.now
    ensures |Complete(s).active| <= |s.active|
    ensures s.active != [] && s.active[0].finish <= s.now ==> |Complete(s).active| < |s.active|
    decreases |s.active|
  {
    if s.active != [] && s.active[0].finish <= s.now {
      CompleteDoes(PopOne(s));
    }
  }

  lemma ReleaseOneKeeps(u: Setup, reqs: Requests, s: Sim)
    requires Ready(u, reqs) && Core(u, reqs, s) && s.cursor < |u.arrivals|
    ensures Core(u, reqs, ReleaseOne(u, s)) && Extends(s, ReleaseOne(u, s))
  {
    var x, t := u.arrivals[s.cursor], ReleaseOne(u, s);
    assert x in u.arrivals && x.id !in s.rows;
    forall id | id in t.rows
      ensures id in reqs && reqs[id].id == id && RowOk(reqs[id], t.rows[id], t.now, t.queue, t.active) {
      assert id != x.id ==> RowOk(reqs[id], s.rows[id], s.now, s.queue, s.active);
    }
  }

  lemma {:induction false} ReleaseKeeps(u: Setup, reqs: Requests, s: Sim)
    requires Ready(u, reqs) && Core(u, reqs, s)
    ensures Core(u, reqs, Release(u, s)) && Extends(s, Release(u, s))
    decreases |u.arrivals| - s.cursor
  {
    if s.cursor < |u.arrivals| && u.arrivals[s.cursor].release <= s.now {
      ReleaseOneKeeps(u, reqs, s);
      ReleaseKeeps(u, reqs, ReleaseOne(u, s));
    }
  }

  lemma {:induction false} ReleaseDoes(u: Setup, s: Sim)
    requires s.cursor <= |u.arrivals|
    requires forall i, j :: 0 <= i < j < |u.arrivals| ==> u.arrivals[i].release <= u.arrivals[j].release
    ensures forall i :: Release(u, s).cursor <= i < |u.arrivals| ==> u.arrivals[i].release > s.now
    ensures Release(u, s).active == s.active && s.cursor <= Release(u, s).cursor <= |u.arrivals|
    ensures Release(u, s).now == s.now
    ensures |Release(u, s).queue| - |s.queue| == Release(u, s).cursor - s.cursor
    ensures s.cursor < |u.arrivals| && u.arrivals[s.cursor].release <= s.now ==> s.cursor < Release(u, s).cursor
    ensures s.queue <= Release(u, s).queue
    decreases |u.arrivals| - s.cursor
  {
    if s.cursor < |u.arrivals| && u.arrivals[s.cursor].release <= s.now {
      ReleaseDoes(u, ReleaseOne(u, s));
    }
  }

  lemma ExpireOneKeeps(u: Setup, reqs: Requests, s: Sim, x: Request)
    requires Core(u, reqs, s) && x in s.queue
    ensures Core(u, reqs, ExpireOne(s, x)) && Extends(s, ExpireOne(s, x))
    ensures forall q :: q in ExpireOne(s, x).queue <==> q in s.queue && (q == x ==> s.now < x.Latest())
    ensures |ExpireOne(s, x).queue| == |s.queue| - if s.now >= x.Latest() then 1 else 0
  {
    var t := ExpireOne(s, x);
    RemoveRemoves(s.queue, x.id);
    RemoveShortens(s.queue, x);
    assert RowOk(x, s.rows[x.id], s.now, s.queue, s.active);
    forall id | id in t.rows
      ensures id in reqs && reqs[id].id == id && RowOk(reqs[id], t.rows[id], t.now, t.queue, t.active) {
      assert RowOk(reqs[id], s.rows[id], s.now, s.queue, s.active);
    }
  }

  lemma {:induction false} ExpireKeeps(u: Setup, reqs: Requests, s: Sim, snapshot: seq<Request>)
    requires Core(u, reqs, s) && DistinctIds(snapshot)
    requires forall q :: q in snapshot ==> q in s.queue
    ensures Core(u, reqs, Expire(s, snapshot)) && Extends(s, Expire(s, snapshot))
    ensures forall q :: q in Expire(s, snapshot).queue <==> q in s.queue && (q in snapshot ==> s.now < q.Latest())
    ensures |Expire(s, snapshot).queue| <= |s.queue|
    ensures (exists q :: q in snapshot && q.Latest() <= s.now) ==> |Expire(s, snapshot).queue| < |s.queue|
    decreases |snapshot|
  {
    if snapshot != [] {
      var x, t := snapshot[0], ExpireOne(s, snapshot[0]);
      assert snapshot == [x] + snapshot[1..];
      ExpireOneKeeps(u, reqs, s, x);
      ExpireKeeps(u, reqs, t, snapshot[1..]);
    }
  }

  lemma {:induction false} ExpireLeaves(s: Sim, snapshot: seq<Request>)
    ensures Expire(s, snapshot).active == s.active && Expire(s, snapshot).cursor == s.cursor
    ensures Expire(s, snapshot).now == s.now
    decreases |snapshot|
  {
    if snapshot != [] { ExpireLeaves(ExpireOne(s, snapshot[0]), snapshot[1..]); }
  }

  lemma StartRows(u: Setup, reqs: Requests, s: Sim, x: Request)
    requires RowsOk(reqs, s) && QueueOk(reqs, s) && DistinctIds(s.queue) && x in s.queue && x.release <= s.now
    ensures RowsOk(reqs, StartOne(s, x)) && Extends(s, StartOne(s, x)) && Started(StartOne(s, x), x.id) == Some(s.now)
    ensures StartOne(s, x).rows.Keys == s.rows.Keys
  {
    var t := StartOne(s, x);
    RemoveRemoves(s.queue, x.id);
    hide Remove, Push, DistinctIds;
    assert RowOk(x, s.rows[x.id], s.now, s.queue, s.active);
    PushInserts(s.active, Run(s.now + x.service, x.id));
    forall id | id in t.rows
      ensures id in reqs && reqs[id].id == id && RowOk(reqs[id], t.rows[id], t.now, t.queue, t.active) {
      assert RowOk(reqs[id], s.rows[id], s.now, s.queue, s.active);
    }
  }

  lemma StartShape(u: Setup, reqs: Requests, s: Sim, x: Request)
    requires QueueOk(reqs, s) && ActiveOk(s) && Shape(u, s) && x in s.queue && |s.active| < u.slots
    ensures Shape(u, StartOne(s, x)) && QueueOk(reqs, StartOne(s, x)) && ActiveOk(StartOne(s, x))
  {
    var run := Run(s.now + x.service, x.id);
    RemoveRemoves(s.queue, x.id);
    PushInserts(s.active, run);
    PushKeepsOrder(s.active, run);
    hide Remove, Push, DistinctIds, DistinctRuns, Ascending;
  }

  lemma StartQueue(s: Sim, x: Request)
    requires DistinctIds(s.queue) && x in s.queue
    ensures forall q :: q in StartOne(s, x).queue <==> q in s.queue && q != x
    ensures |StartOne(s, x).queue| == |s.queue| - 1
  {
    RemoveRemoves(s.queue, x.id);
    RemoveShortens(s.queue, x);
    hide Remove;
    forall q | q in s.queue ensures q.id == x.id ==> q == x { }
  }

  lemma StartOneKeeps(u: Setup, reqs: Requests, s: Sim, x: Request)
    requires Core(u, reqs, s) && x in s.queue && |s.active| < u.slots && x.release <= s.now
    ensures Core(u, reqs, StartOne(s, x)) && Extends(s, StartOne(s, x))
    ensures Started(StartOne(s, x), x.id) == Some(s.now)
    ensures forall q :: q in StartOne(s, x).queue <==> q in s.queue && q != x
    ensures |StartOne(s, x).queue| == |s.queue| - 1
  {
    assert DistinctIds(s.queue);
    StartRows(u, reqs, s, x);
    StartShape(u, reqs, s, x);
    StartQueue(s, x);
    hide RowsOk, QueueOk, ActiveOk, Shape, Extends, Started, Remove, Push;
  }
}
