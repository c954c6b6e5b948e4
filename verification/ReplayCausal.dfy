/** The replay cannot see the future: two traces that look alike up to T start the same requests
    at the same instants up to T. */
module ReplayCausal {
  import opened Basics
  import opened Order
  import opened Scheduling
  import opened Replay
  import opened ReplayCore
  import opened ReplayStep
  import opened ReplayHistory
  import opened ReplayRun

  /** Equal in everything the scheduler may look at. */
  predicate Same(a: Request, b: Request) {
    a == b.(service := a.service)
  }

  predicate SameQueue(a: seq<Request>, b: seq<Request>) {
    |a| == |b| && forall i :: 0 <= i < |a| ==> Same(a[i], b[i])
  }

  predicate SameKeyed(a: seq<Keyed<Request>>, b: seq<Keyed<Request>>) {
    |a| == |b| && forall i :: 0 <= i < |a| ==> a[i].rank == b[i].rank && Same(a[i].item, b[i].item)
  }

  /** The heap entries that come out by T. */
  function Upto(active: seq<Run>, T: nat): seq<Run> {
    if active == [] then [] else (if active[0].finish <= T then [active[0]] else []) + Upto(active[1..], T)
  }

  ghost predicate Coupled(a: Sim, b: Sim, T: nat) {
    && a.now == b.now && a.cursor == b.cursor
    && SameQueue(a.queue, b.queue)
    && |a.active| == |b.active| && Upto(a.active, T) == Upto(b.active, T)
    && a.rows.Keys == b.rows.Keys
    && (forall id :: Started(a, id) == Started(b, id))
  }

  /** The arrivals up to T are the first k of both lists. */
  ghost predicate SamePrefix(u: Setup, v: Setup, T: nat, k: nat) {
    && u.slots == v.slots && u.mode == v.mode
    && k <= |u.arrivals| && k <= |v.arrivals|
    && (forall i :: 0 <= i < k ==> Same(u.arrivals[i], v.arrivals[i]))
    && (forall i :: k <= i < |u.arrivals| ==> u.arrivals[i].release > T)
    && (forall i :: k <= i < |v.arrivals| ==> v.arrivals[i].release > T)
  }

  // ---- heap ----

  lemma {:induction false} UptoHead(a: seq<Run>, T: nat)
    requires Ascending(a)
    ensures Upto(a, T) != [] <==> a != [] && a[0].finish <= T
    ensures Upto(a, T) != [] ==> Upto(a, T)[0] == a[0]
  {
    if a != [] && a[0].finish > T { UptoHead(a[1..], T); }
  }

  lemma {:induction false} UptoPush(a: seq<Run>, r: Run, T: nat)
    requires Ascending(a)
    ensures Upto(Push(a, r), T) == if r.finish <= T then Push(Upto(a, T), r) else Upto(a, T)
  {
    if a == [] || r.finish < a[0].finish || (r.finish == a[0].finish && StrLess(r.id, a[0].id)) {
      assert Push(a, r)[1..] == a;
      UptoHead(a, T);
    } else {
      assert Push(a, r)[1..] == Push(a[1..], r);
      UptoPush(a[1..], r, T);
      if r.finish <= T {
        assert Upto(a, T) == [a[0]] + Upto(a[1..], T);
        assert Upto(a, T)[1..] == Upto(a[1..], T);
      }
    }
  }

  // ---- phases ----

  lemma {:induction false} CompleteCoupled(a: Sim, b: Sim, T: nat)
    requires Coupled(a, b, T) && Ascending(a.active) && Ascending(b.active) && a.now <= T
    ensures Coupled(Complete(a), Complete(b), T)
    decreases |a.active|
  {
    UptoHead(a.active, T);
    UptoHead(b.active, T);
    if a.active != [] && a.active[0].finish <= a.now {
      var a', b' := PopOne(a), PopOne(b);
      assert Upto(a.active, T)[1..] == Upto(a'.active, T);
      assert Upto(b.active, T)[1..] == Upto(b'.active, T);
      forall id ensures Started(a', id) == Started(b', id) {
        assert Started(a, id) == Started(b, id);
        assert Started(a', id) == Started(a, id) && Started(b', id) == Started(b, id);
      }
      CompleteCoupled(a', b', T);
    }
  }

  lemma {:induction false} ReleaseCoupled(u: Setup, v: Setup, a: Sim, b: Sim, T: nat, k: nat)
    requires SamePrefix(u, v, T, k) && Coupled(a, b, T) && a.now <= T
    ensures Coupled(Release(u, a), Release(v, b), T)
    decreases |u.arrivals| - a.cursor
  {
    if a.cursor < k && u.arrivals[a.cursor].release <= a.now {
      var a', b' := ReleaseOne(u, a), ReleaseOne(v, b);
      forall id ensures Started(a', id) == Started(b', id) {
        assert Started(a, id) == Started(b, id);
      }
      ReleaseCoupled(u, v, a', b', T, k);
    }
  }

  lemma {:induction false} RemoveSame(a: seq<Request>, b: seq<Request>, id: string)
    requires SameQueue(a, b)
    ensures SameQueue(Remove(a, id), Remove(b, id))
  {
    if a != [] && a[0].id != id { RemoveSame(a[1..], b[1..], id); }
  }

  lemma {:induction false} ExpireCoupled(a: Sim, b: Sim, xs: seq<Request>, ys: seq<Request>, T: nat)
    requires Coupled(a, b, T) && SameQueue(xs, ys)
    ensures Coupled(Expire(a, xs), Expire(b, ys), T)
    decreases |xs|
  {
    if xs != [] {
      var a', b' := ExpireOne(a, xs[0]), ExpireOne(b, ys[0]);
      RemoveSame(a.queue, b.queue, xs[0].id);
      forall id ensures Started(a', id) == Started(b', id) {
        assert Started(a, id) == Started(b, id);
        assert Started(a', id) == Started(a, id) && Started(b', id) == Started(b, id);
      }
      ExpireCoupled(a', b', xs[1..], ys[1..], T);
    }
  }

  lemma {:induction false} EligibleSame(a: seq<Request>, b: seq<Request>, now: nat, mode: Mode)
    requires SameQueue(a, b)
    ensures SameKeyed(Eligible(a, now, mode), Eligible(b, now, mode))
  {
    if a != [] { EligibleSame(a[..|a| - 1], b[..|b| - 1], now, mode); }
  }

  lemma {:induction false} InsertSame(x: Keyed<Request>, y: Keyed<Request>, xs: seq<Keyed<Request>>, ys: seq<Keyed<Request>>)
    requires x.rank == y.rank && Same(x.item, y.item) && SameKeyed(xs, ys)
    ensures SameKeyed(Insert(x, xs), Insert(y, ys))
  {
    if xs != [] && !Less(x.rank, xs[0].rank) { InsertSame(x, y, xs[1..], ys[1..]); }
  }

  lemma {:induction false} SortSame(xs: seq<Keyed<Request>>, ys: seq<Keyed<Request>>)
    requires SameKeyed(xs, ys)
    ensures SameKeyed(Sort(xs), Sort(ys))
  {
    if xs != [] {
      var n := |xs| - 1;
      SortSame(xs[..n], ys[..n]);
      InsertSame(xs[n], ys[n], Sort(xs[..n]), Sort(ys[..n]));
    }
  }

  /** Where a start at an instant by T leads to a finish by T in either run, both services agree. */
  ghost predicate Hidden(reqsA: Requests, a: Sim, reqsB: Requests, b: Sim, T: nat) {
    forall id :: id in reqsA && id in reqsB && Started(a, id).Some? && Started(b, id).Some?
                 && Started(a, id).value <= T && Started(b, id).value <= T ==>
      || reqsA[id].service == reqsB[id].service
      || (Started(a, id).value + reqsA[id].service > T && Started(b, id).value + reqsB[id].service > T)
  }

  /** Starts made so far are still there at the end. */
  ghost predicate Persists(s: Sim, f: Sim) {
    forall id :: Started(s, id).Some? ==> Started(f, id) == Started(s, id)
  }

  lemma PushCoupled(a: seq<Run>, b: seq<Run>, r: Run, q: Run, T: nat)
    requires Ascending(a) && Ascending(b) && |a| == |b| && Upto(a, T) == Upto(b, T)
    requires r == q || (r.finish > T && q.finish > T)
    ensures |Push(a, r)| == |Push(b, q)| && Upto(Push(a, r), T) == Upto(Push(b, q), T)
  {
    UptoPush(a, r, T);
    UptoPush(b, q, T);
    PushInserts(a, r);
    PushInserts(b, q);
  }

  /** Starting one request keeps the runs coupled if its finish is equal in both or beyond T in both. */
  lemma StartCoupled(a: Sim, b: Sim, x: Request, y: Request, T: nat)
    requires Coupled(a, b, T) && Same(x, y) && Ascending(a.active) && Ascending(b.active)
    requires x.service == y.service || (a.now + x.service > T && a.now + y.service > T)
    ensures Coupled(StartOne(a, x), StartOne(b, y), T)
  {
    hide Upto, SameQueue, Push, Remove, Ascending, Started;
    RemoveSame(a.queue, b.queue, x.id);
    PushCoupled(a.active, b.active, Run(a.now + x.service, x.id), Run(a.now + y.service, x.id), T);
    StartedSame(a, b, x, y);
  }

  lemma StartedSame(a: Sim, b: Sim, x: Request, y: Request)
    requires a.now == b.now && a.rows.Keys == b.rows.Keys && x.id == y.id
    requires forall id :: Started(a, id) == Started(b, id)
    ensures forall id :: Started(StartOne(a, x), id) == Started(StartOne(b, y), id)
    ensures StartOne(a, x).rows.Keys == StartOne(b, y).rows.Keys
  {
    hide Push, Remove;
    forall id ensures Started(StartOne(a, x), id) == Started(StartOne(b, y), id) {
      assert Started(a, id) == Started(b, id);
    }
  }

  /** What the end of both runs says about a start made now. */
  lemma StartHidden(reqsA: Requests, reqsB: Requests, a: Sim, b: Sim, x: Request, y: Request, T: nat, fa: Sim, fb: Sim)
    requires a.now == b.now <= T && x.id == y.id && x.id in a.rows && x.id in b.rows
    requires x.id in reqsA && reqsA[x.id] == x && x.id in reqsB && reqsB[x.id] == y
    requires Hidden(reqsA, fa, reqsB, fb, T) && Persists(StartOne(a, x), fa) && Persists(StartOne(b, y), fb)
    ensures x.service == y.service || (a.now + x.service > T && a.now + y.service > T)
  {
    assert Started(StartOne(a, x), x.id) == Some(a.now) && Started(StartOne(b, y), x.id) == Some(a.now);
    assert Started(fa, x.id) == Some(a.now) && Started(fb, x.id) == Some(a.now);
  }

  /** A state from which dispatch is about to serve `es`. */
  ghost predicate Serving(u: Setup, reqs: Requests, s: Sim, es: seq<Keyed<Request>>) {
    Core(u, reqs, s) && Pending(s, es, u.mode) && Released(s)
  }

  lemma StepServing(u: Setup, reqs: Requests, s: Sim, es: seq<Keyed<Request>>)
    requires Serving(u, reqs, s, es) && es != [] && |s.active| < u.slots
    ensures Serving(u, reqs, StartOne(s, es[0].item), es[1..])
    ensures es[0].item.id in reqs && reqs[es[0].item.id] == es[0].item && es[0].item.id in s.rows
    ensures Extends(s, StartOne(s, es[0].item))
  {
    assert es[0] in es;
    StartOneKeeps(u, reqs, s, es[0].item);
    PendingAfter(s, es, u.mode);
  }

  lemma PersistsBack(s: Sim, t: Sim, f: Sim)
    requires Extends(s, t) && Persists(t, f)
    ensures Persists(s, f)
  {
    forall id | Started(s, id).Some? ensures Started(f, id) == Started(s, id) {
      assert Started(t, id) == Started(s, id);
    }
  }

  lemma StepPersists(u: Setup, reqs: Requests, s: Sim, es: seq<Keyed<Request>>, f: Sim)
    requires Serving(u, reqs, s, es) && es != [] && |s.active| < u.slots
    requires Persists(Dispatch(u.slots, s, es), f)
    ensures Serving(u, reqs, StartOne(s, es[0].item), es[1..])
    ensures Persists(StartOne(s, es[0].item), f)
    ensures Begins(reqs, s, es[0].item)
  {
    StepServing(u, reqs, s, es);
    var t := StartOne(s, es[0].item);
    DispatchKeeps(u, reqs, t, es[1..]);
    PersistsBack(t, Dispatch(u.slots, t, es[1..]), f);
  }

  ghost predicate Begins(reqs: Requests, s: Sim, x: Request) {
    x.id in reqs && reqs[x.id] == x && x.id in s.rows && Ascending(s.active)
  }

  lemma StepCoupled(reqsA: Requests, reqsB: Requests, a: Sim, b: Sim,
                    xs: seq<Keyed<Request>>, ys: seq<Keyed<Request>>, T: nat, fa: Sim, fb: Sim)
    requires Coupled(a, b, T) && SameKeyed(xs, ys) && a.now <= T && xs != []
    requires Begins(reqsA, a, xs[0].item) && Begins(reqsB, b, ys[0].item)
    requires Hidden(reqsA, fa, reqsB, fb, T)
    requires Persists(StartOne(a, xs[0].item), fa) && Persists(StartOne(b, ys[0].item), fb)
    ensures Coupled(StartOne(a, xs[0].item), StartOne(b, ys[0].item), T)
    ensures SameKeyed(xs[1..], ys[1..])
  {
    StartHidden(reqsA, reqsB, a, b, xs[0].item, ys[0].item, T, fa, fb);
    StartCoupled(a, b, xs[0].item, ys[0].item, T);
  }

  lemma {:induction false} DispatchCoupled(u: Setup, v: Setup, reqsA: Requests, reqsB: Requests, a: Sim, b: Sim,
                                           xs: seq<Keyed<Request>>, ys: seq<Keyed<Request>>, T: nat, fa: Sim, fb: Sim)
    requires Serving(u, reqsA, a, xs) && Serving(v, reqsB, b, ys) && u.slots == v.slots
    requires Coupled(a, b, T) && SameKeyed(xs, ys) && a.now <= T
    requires Hidden(reqsA, fa, reqsB, fb, T)
    requires Persists(Dispatch(u.slots, a, xs), fa) && Persists(Dispatch(v.slots, b, ys), fb)
    ensures Coupled(Dispatch(u.slots, a, xs), Dispatch(v.slots, b, ys), T)
    decreases |xs|
  {
    if xs != [] && |a.active| < u.slots {
      var a', b' := StartOne(a, xs[0].item), StartOne(b, ys[0].item);
      StepPersists(u, reqsA, a, xs, fa);
      StepPersists(v, reqsB, b, ys, fb);
      StepCoupled(reqsA, reqsB, a, b, xs, ys, T, fa, fb);
      DispatchCoupled(u, v, reqsA, reqsB, a', b', xs[1..], ys[1..], T, fa, fb);
    }
  }

  // ---- iterations ----

  lemma PrunedCoupled(u: Setup, v: Setup, reqsA: Requests, reqsB: Requests, a: Sim, b: Sim, T: nat, k: nat)
    requires AtTop(u, reqsA, a) && AtTop(v, reqsB, b) && SamePrefix(u, v, T, k) && Coupled(a, b, T) && a.now <= T
    ensures Coupled(Pruned(u, a), Pruned(v, b), T)
  {
    CompleteCoupled(a, b, T);
    CompleteDoes(a);
    var ca, cb := Complete(a), Complete(b);
    ReleaseCoupled(u, v, ca, cb, T, k);
    var ra, rb := Release(u, ca), Release(v, cb);
    ExpireCoupled(ra, rb, ra.queue, rb.queue, T);
  }

  lemma ServingAtFirst(u: Setup, reqs: Requests, s: Sim)
    requires AtTop(u, reqs, s)
    ensures Serving(u, reqs, Pruned(u, s), Sort(Eligible(Pruned(u, s).queue, s.now, u.mode)))
    ensures Pruned(u, s).now == s.now
  {
    PrunedKeeps(u, reqs, s);
    PrunedReleased(u, reqs, s);
    PendingAtFirst(Pruned(u, s), u.mode);
  }

  lemma SettleCoupled(u: Setup, v: Setup, reqsA: Requests, reqsB: Requests, a: Sim, b: Sim, T: nat, k: nat, fa: Sim, fb: Sim)
    requires AtTop(u, reqsA, a) && AtTop(v, reqsB, b) && SamePrefix(u, v, T, k) && Coupled(a, b, T) && a.now <= T
    requires Hidden(reqsA, fa, reqsB, fb, T) && Persists(Settle(u, a), fa) && Persists(Settle(v, b), fb)
    ensures Coupled(Settle(u, a), Settle(v, b), T)
  {
    PrunedCoupled(u, v, reqsA, reqsB, a, b, T, k);
    ServingAtFirst(u, reqsA, a);
    ServingAtFirst(v, reqsB, b);
    var pa, pb := Pruned(u, a), Pruned(v, b);
    EligibleSame(pa.queue, pb.queue, a.now, u.mode);
    var xs, ys := Eligible(pa.queue, a.now, u.mode), Eligible(pb.queue, b.now, v.mode);
    SortSame(xs, ys);
    DispatchCoupled(u, v, reqsA, reqsB, pa, pb, Sort(xs), Sort(ys), T, fa, fb);
  }

  lemma {:induction false} LeastLatestSame(a: seq<Request>, b: seq<Request>)
    requires SameQueue(a, b)
    ensures LeastLatest(a) == LeastLatest(b)
  {
    if a != [] { LeastLatestSame(a[..|a| - 1], b[..|b| - 1]); }
  }

  /** An event by T in one run is the next event in the other. */
  lemma NextCoupled(u: Setup, v: Setup, a: Sim, b: Sim, T: nat, k: nat)
    requires SamePrefix(u, v, T, k) && Coupled(a, b, T) && Ascending(a.active) && Ascending(b.active)
    requires NextTime(u, a).Some? && NextTime(u, a).value <= T
    ensures NextTime(v, b) == NextTime(u, a)
  {
    LeastLatestSame(a.queue, b.queue);
    UptoHead(a.active, T);
    UptoHead(b.active, T);
    NextFinishCoupled(a, b, T);
    NextReleaseCoupled(u, v, a, b, T, k);
  }

  lemma NextFinishCoupled(a: Sim, b: Sim, T: nat)
    requires Coupled(a, b, T) && Ascending(a.active) && Ascending(b.active)
    ensures NextFinish(a) == NextFinish(b)
            || ((NextFinish(a).None? || NextFinish(a).value > T) && (NextFinish(b).None? || NextFinish(b).value > T))
  {
    UptoHead(a.active, T);
    UptoHead(b.active, T);
  }

  lemma NextReleaseCoupled(u: Setup, v: Setup, a: Sim, b: Sim, T: nat, k: nat)
    requires SamePrefix(u, v, T, k) && Coupled(a, b, T)
    ensures NextRelease(u, a) == NextRelease(v, b)
            || ((NextRelease(u, a).None? || NextRelease(u, a).value > T)
                && (NextRelease(v, b).None? || NextRelease(v, b).value > T))
  {
  }

  /** Unrolling the loop once, whether or not anything is left to do. */
  lemma LoopUnrolls(u: Setup, reqs: Requests, s: Sim)
    requires AtTop(u, reqs, s)
    ensures NextTime(u, Settle(u, s)).None? ==> Loop(u, reqs, s) == Settle(u, s)
    ensures NextTime(u, Settle(u, s)).Some? ==>
              AtTop(u, reqs, Settle(u, s).(now := NextTime(u, Settle(u, s)).value))
              && Loop(u, reqs, s) == Loop(u, reqs, Settle(u, s).(now := NextTime(u, Settle(u, s)).value))
  {
    Iterates(u, reqs, s);
  }

  /** Later starts happen no earlier than the present. */
  lemma {:induction false} LoopExtends(u: Setup, reqs: Requests, s: Sim, id: string)
    requires AtTop(u, reqs, s)
    ensures Started(Loop(u, reqs, s), id) == Started(s, id)
            || (Started(s, id).None? && Started(Loop(u, reqs, s), id).Some? && Started(Loop(u, reqs, s), id).value >= s.now)
    decreases Work(u, s), if Due(u, s) then 0 else 1
  {
    Iterates(u, reqs, s);
    LoopUnrolls(u, reqs, s);
    var t := Settle(u, s);
    assert Started(t, id) == Started(s, id) || (Started(s, id).None? && Started(t, id) == Some(s.now));
    if NextTime(u, t).Some? {
      var n := t.(now := NextTime(u, t).value);
      assert Started(n, id) == Started(t, id);
      LoopExtends(u, reqs, n, id);
    }
  }

  /** After this iteration, starts come only at later events. */
  lemma StartsAfter(u: Setup, reqs: Requests, s: Sim, id: string)
    requires AtTop(u, reqs, s)
    ensures Started(Loop(u, reqs, s), id) == Started(Settle(u, s), id)
            || (Started(Settle(u, s), id).None? && NextTime(u, Settle(u, s)).Some? && Started(Loop(u, reqs, s), id).Some?
                && Started(Loop(u, reqs, s), id).value >= NextTime(u, Settle(u, s)).value)
  {
    LoopUnrolls(u, reqs, s);
    var t := Settle(u, s);
    if NextTime(u, t).Some? {
      var n := t.(now := NextTime(u, t).value);
      assert Started(n, id) == Started(t, id);
      LoopExtends(u, reqs, n, id);
    }
  }

  function StartedBy(s: Sim, id: string, T: nat): Option<nat> {
    if Started(s, id).Some? && Started(s, id).value <= T then Started(s, id) else None
  }

  lemma SettlePersists(u: Setup, reqs: Requests, s: Sim)
    requires AtTop(u, reqs, s)
    ensures Persists(Settle(u, s), Loop(u, reqs, s))
  {
    forall id | Started(Settle(u, s), id).Some? ensures Started(Loop(u, reqs, s), id) == Started(Settle(u, s), id) {
      StartsAfter(u, reqs, s, id);
    }
  }

  lemma BothSettle(u: Setup, v: Setup, reqsA: Requests, reqsB: Requests, a: Sim, b: Sim, T: nat, k: nat)
    requires AtTop(u, reqsA, a) && AtTop(v, reqsB, b) && SamePrefix(u, v, T, k) && Coupled(a, b, T) && a.now <= T
    requires Hidden(reqsA, Loop(u, reqsA, a), reqsB, Loop(v, reqsB, b), T)
    ensures Coupled(Settle(u, a), Settle(v, b), T)
    ensures Ascending(Settle(u, a).active) && Ascending(Settle(v, b).active)
  {
    SettlePersists(u, reqsA, a);
    SettlePersists(v, reqsB, b);
    SettleCoupled(u, v, reqsA, reqsB, a, b, T, k, Loop(u, reqsA, a), Loop(v, reqsB, b));
    Iterates(u, reqsA, a);
    Iterates(v, reqsB, b);
  }

  /** With no further event by T, the starts by T are those already made. */
  lemma StartsClosed(u: Setup, reqs: Requests, s: Sim, T: nat, id: string)
    requires AtTop(u, reqs, s)
    requires NextTime(u, Settle(u, s)).None? || NextTime(u, Settle(u, s)).value > T
    ensures StartedBy(Loop(u, reqs, s), id, T) == StartedBy(Settle(u, s), id, T)
  {
    StartsAfter(u, reqs, s, id);
  }

  lemma {:induction false} RunsAgree(u: Setup, v: Setup, reqsA: Requests, reqsB: Requests, a: Sim, b: Sim, T: nat,
                                     k: nat, id: string)
    requires AtTop(u, reqsA, a) && AtTop(v, reqsB, b) && SamePrefix(u, v, T, k) && Coupled(a, b, T) && a.now <= T
    requires Hidden(reqsA, Loop(u, reqsA, a), reqsB, Loop(v, reqsB, b), T)
    ensures StartedBy(Loop(u, reqsA, a), id, T) == StartedBy(Loop(v, reqsB, b), id, T)
    decreases Work(u, a), if Due(u, a) then 0 else 1
  {
    var ta, tb := Settle(u, a), Settle(v, b);
    BothSettle(u, v, reqsA, reqsB, a, b, T, k);
    if NextTime(u, ta).Some? && NextTime(u, ta).value <= T {
      NextCoupled(u, v, ta, tb, T, k);
      var n := NextTime(u, ta).value;
      JumpCoupled(ta, tb, n, T);
      LoopUnrolls(u, reqsA, a);
      LoopUnrolls(v, reqsB, b);
      Iterates(u, reqsA, a);
      RunsAgree(u, v, reqsA, reqsB, ta.(now := n), tb.(now := n), T, k, id);
    } else {
      NextAgreesLate(u, v, ta, tb, T, k);
      StartsClosed(u, reqsA, a, T, id);
      StartsClosed(v, reqsB, b, T, id);
      assert Started(ta, id) == Started(tb, id);
    }
  }

  lemma JumpCoupled(a: Sim, b: Sim, n: nat, T: nat)
    requires Coupled(a, b, T)
    ensures Coupled(a.(now := n), b.(now := n), T)
  {
    forall id ensures Started(a.(now := n), id) == Started(b.(now := n), id) {
      assert Started(a, id) == Started(b, id);
    }
  }

  lemma NextAgreesLate(u: Setup, v: Setup, a: Sim, b: Sim, T: nat, k: nat)
    requires SamePrefix(u, v, T, k) && Coupled(a, b, T) && Ascending(a.active) && Ascending(b.active)
    requires NextTime(u, a).None? || NextTime(u, a).value > T
    ensures NextTime(v, b).None? || NextTime(v, b).value > T
  {
    LeastLatestSame(a.queue, b.queue);
    NextFinishCoupled(a, b, T);
    NextReleaseCoupled(u, v, a, b, T, k);
  }

  // ---- traces ----

  /** Every request of x released by T is in y, alike up to its service time. */
  ghost predicate CoveredUpTo(x: seq<Request>, y: seq<Request>, T: nat) {
    forall r :: r in x && r.release <= T ==> exists q :: q in y && Same(r, q)
  }

  ghost predicate InArrivalOrder(xs: seq<Request>) {
    forall i, j :: 0 <= i < j < |xs| ==> Arrives(xs[i], xs[j]) && xs[i].id != xs[j].id
  }

  lemma SameArrives(a: Request, b: Request, a': Request, b': Request)
    requires Same(a, a') && Same(b, b') && Arrives(a, b)
    ensures Arrives(a', b') && !Arrives(b', a') && a'.release <= b'.release
  {
    LessIsStrictTotal(Rank(a.release, 0, 0, a.id), Rank(b.release, 0, 0, b.id), Rank(a.release, 0, 0, a.id));
  }

  lemma IdsApart(x: seq<Request>, m: nat, i: nat)
    requires InArrivalOrder(x) && m < i < |x|
    ensures x[m].id != x[i].id
  {
  }

  /** If the lists agree before i, the counterpart of x[i] in y stands no earlier than i. */
  lemma NotEarlier(x: seq<Request>, y: seq<Request>, i: nat, m: nat)
    requires InArrivalOrder(x) && i < |x| && m < |y| && Same(x[i], y[m])
    requires forall j :: 0 <= j < i ==> j < |y| && Same(x[j], y[j])
    ensures i <= m
  {
    if m < i { IdsApart(x, m, i); }
  }

  lemma Counterpart(x: seq<Request>, y: seq<Request>, T: nat, i: nat) returns (m: nat)
    requires CoveredUpTo(x, y, T) && i < |x| && x[i].release <= T
    ensures m < |y| && Same(x[i], y[m])
  {
    assert x[i] in x;
    var q :| q in y && Same(x[i], q);
    m :| 0 <= m < |y| && y[m] == q;
  }

  lemma OrderOf(x: seq<Request>, i: nat, j: nat)
    requires InArrivalOrder(x) && i < j < |x|
    ensures Arrives(x[i], x[j]) && x[i].release <= x[j].release
  {
  }

  /** Nothing of y can stand between the agreed part and the counterpart of x[i]. */
  lemma NothingBetween(x: seq<Request>, y: seq<Request>, T: nat, i: nat, m: nat)
    requires InArrivalOrder(x) && InArrivalOrder(y) && CoveredUpTo(y, x, T)
    requires i < |x| && i <= m < |y| && Same(x[i], y[m]) && x[i].release <= T
    requires forall j :: 0 <= j < i ==> j < |y| && Same(x[j], y[j])
    ensures i == m
  {
    if i < m {
      OrderOf(y, i, m);
      var p := Counterpart(y, x, T, i);
      NotEarlier(y, x, i, p);
      IdsApart(y, i, m);
      OrderOf(x, i, p);
      SameArrives(x[i], x[p], y[m], y[i]);
    }
  }

  lemma {:induction false} ArrivalsAgree(x: seq<Request>, y: seq<Request>, T: nat, i: nat)
    requires InArrivalOrder(x) && InArrivalOrder(y) && CoveredUpTo(x, y, T) && CoveredUpTo(y, x, T)
    requires i < |x| && x[i].release <= T
    ensures i < |y| && Same(x[i], y[i])
    decreases i
  {
    forall j | 0 <= j < i ensures j < |y| && Same(x[j], y[j]) {
      OrderOf(x, j, i);
      ArrivalsAgree(x, y, T, j);
    }
    var m := Counterpart(x, y, T, i);
    NotEarlier(x, y, i, m);
    NothingBetween(x, y, T, i, m);
  }

  function CountReleased(xs: seq<Request>, T: nat): (k: nat)
    ensures k <= |xs|
  {
    if xs == [] || xs[|xs| - 1].release <= T then |xs| else CountReleased(xs[..|xs| - 1], T)
  }

  lemma {:induction false} CountSplits(xs: seq<Request>, T: nat)
    requires InArrivalOrder(xs)
    ensures forall i :: 0 <= i < CountReleased(xs, T) ==> xs[i].release <= T
    ensures forall i :: CountReleased(xs, T) <= i < |xs| ==> xs[i].release > T
  {
    if xs == [] {
    } else if xs[|xs| - 1].release <= T {
      forall i | 0 <= i < |xs| ensures xs[i].release <= T {
        if i < |xs| - 1 { SameArrives(xs[i], xs[|xs| - 1], xs[i], xs[|xs| - 1]); }
      }
    } else {
      CountSplits(xs[..|xs| - 1], T);
    }
  }

  lemma SharedPrefix(x: seq<Request>, y: seq<Request>, T: nat)
    requires InArrivalOrder(x) && InArrivalOrder(y) && CoveredUpTo(x, y, T) && CoveredUpTo(y, x, T)
    ensures var k := CountReleased(x, T); k <= |y| && forall i :: 0 <= i < k ==> Same(x[i], y[i])
  {
    var k := CountReleased(x, T);
    CountSplits(x, T);
    hide InArrivalOrder, CoveredUpTo, CountReleased;
    forall i | 0 <= i < k ensures i < |y| && Same(x[i], y[i]) {
      ArrivalsAgree(x, y, T, i);
    }
    if k > 0 { ArrivalsAgree(x, y, T, k - 1); }
  }

  lemma LaterRest(x: seq<Request>, y: seq<Request>, T: nat)
    requires InArrivalOrder(x) && InArrivalOrder(y) && CoveredUpTo(x, y, T) && CoveredUpTo(y, x, T)
    ensures forall i :: CountReleased(x, T) <= i < |y| ==> y[i].release > T
  {
    CountSplits(x, T);
    hide InArrivalOrder, CoveredUpTo, CountReleased;
    forall i | CountReleased(x, T) <= i < |y| ensures y[i].release > T {
      if y[i].release <= T { ArrivalsAgree(y, x, T, i); }
    }
  }

  lemma PrefixFrom(x: seq<Request>, y: seq<Request>, T: nat, slots: nat, mode: Mode)
    requires InArrivalOrder(x) && InArrivalOrder(y) && CoveredUpTo(x, y, T) && CoveredUpTo(y, x, T)
    ensures SamePrefix(Setup(x, slots, mode), Setup(y, slots, mode), T, CountReleased(x, T))
  {
    CountSplits(x, T);
    SharedPrefix(x, y, T);
    LaterRest(x, y, T);
    hide InArrivalOrder, CoveredUpTo, CountReleased, Same;
  }

  lemma ArrivalOrder(tr: Trace, mode: Mode)
    requires tr.Valid()
    ensures InArrivalOrder(SetupOf(tr, mode).arrivals)
    ensures forall r :: r in SetupOf(tr, mode).arrivals <==> r in tr.requests
  {
    ArrivalsSorted(tr, mode);
    ArrivalsDistinct(tr, mode);
  }

  /** Two traces with the same slots that agree, up to service times, on everything released by T, and
      whose service times differ only for calls that finish after T in both replays, start the same
      requests at the same instants up to T. */
  lemma NonAnticipating(x: Trace, y: Trace, mode: Mode, T: nat, id: string)
    requires x.Valid() && y.Valid() && x.slots == y.slots
    requires CoveredUpTo(x.requests, y.requests, T) && CoveredUpTo(y.requests, x.requests, T)
    requires Hidden(ById(x.requests), Final(x, mode), ById(y.requests), Final(y, mode), T)
    ensures StartedBy(Final(x, mode), id, T) == StartedBy(Final(y, mode), id, T)
  {
    var u, v := SetupOf(x, mode), SetupOf(y, mode);
    SetupReady(x, mode);
    SetupReady(y, mode);
    ArrivalOrder(x, mode);
    ArrivalOrder(y, mode);
    PrefixFrom(u.arrivals, v.arrivals, T, x.slots, mode);
    RunsAgree(u, v, ById(x.requests), ById(y.requests), START, START, T, CountReleased(u.arrivals, T), id);
  }
}
