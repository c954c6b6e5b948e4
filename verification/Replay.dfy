/** Discrete-event scheduler replay (replay.py): the event loop as a transition on the
    simulator's variables, and the imperative loop proved equal to it. */
module Replay {
  import opened Basics
  import opened Order
  import opened Scheduling

  datatype Request = Request(id: string, session: string, workload: string, release: nat, capture: nat,
                             deadline: nat, profile: nat, service: nat, priority: nat, maxAge: nat)
  {
    predicate Valid() { capture <= release < deadline && service > 0 }

    function Latest(): (r: nat)
      ensures r <= deadline && r <= capture + maxAge && (r == deadline || r == capture + maxAge)
    {
      if deadline <= capture + maxAge then deadline else capture + maxAge
    }

    function AsCandidate(): Candidate {
      Candidate(id, release, Latest(), profile, priority)
    }
  }

  datatype Trace = Trace(duration: nat, slots: nat, requests: seq<Request>)
  {
    ghost predicate Valid() {
      && 1 <= slots
      && (forall i :: 0 <= i < |requests| ==> requests[i].Valid() && requests[i].release <= duration)
      && (forall i, j :: 0 <= i < j < |requests| ==> requests[i].id != requests[j].id)
    }
  }

  datatype Phase = Queued | Running | InTime | Late | ExpiredUndispatched

  datatype Row = Row(id: string, session: string, workload: string, release: nat, capture: nat, latest: nat,
                     started: Option<nat>, completed: Option<nat>, phase: Phase)

  /** An entry of the heap of finish times. */
  datatype Run = Run(finish: nat, id: string)

  /** The loop's variables: clock, arrival cursor, queue, heap and rows. */
  datatype Sim = Sim(now: nat, cursor: nat, queue: seq<Request>, active: seq<Run>, rows: map<string, Row>)

  /** What stays fixed during a replay: the sorted arrivals, the slots and the policy. */
  datatype Setup = Setup(arrivals: seq<Request>, slots: nat, mode: Mode)

  /** The requests of a trace by id. */
  function ById(requests: seq<Request>): map<string, Request> {
    if requests == [] then map[]
    else ById(requests[..|requests| - 1])[requests[|requests| - 1].id := requests[|requests| - 1]]
  }

  // ---- the heap: an ascending list, so its head is the least entry ----

  function Push(active: seq<Run>, r: Run): seq<Run> {
    if active == [] || r.finish < active[0].finish || (r.finish == active[0].finish && StrLess(r.id, active[0].id))
    then [r] + active
    else [active[0]] + Push(active[1..], r)
  }

  // ---- one iteration ----

  function NewRow(r: Request): Row {
    Row(r.id, r.session, r.workload, r.release, r.capture, r.Latest(), None, None, Queued)
  }

  function FinishRow(row: Row, finish: nat): Row {
    row.(completed := Some(finish), phase := if finish < row.latest then InTime else Late)
  }

  /** `heappop`, then close the row. */
  function PopOne(s: Sim): Sim
    requires s.active != []
  {
    var run := s.active[0];
    if run.id in s.rows
    then s.(active := s.active[1..], rows := s.rows[run.id := FinishRow(s.rows[run.id], run.finish)])
    else s.(active := s.active[1..])
  }

  function Complete(s: Sim): Sim
    decreases |s.active|
  {
    if s.active != [] && s.active[0].finish <= s.now then Complete(PopOne(s)) else s
  }

  function ReleaseOne(u: Setup, s: Sim): Sim
    requires s.cursor < |u.arrivals|
  {
    var r := u.arrivals[s.cursor];
    s.(queue := s.queue + [r], rows := s.rows[r.id := NewRow(r)], cursor := s.cursor + 1)
  }

  function Release(u: Setup, s: Sim): Sim
    decreases |u.arrivals| - s.cursor
  {
    if s.cursor < |u.arrivals| && u.arrivals[s.cursor].release <= s.now then Release(u, ReleaseOne(u, s)) else s
  }

  /** `queue.remove(r)`: ids are unique, so the id identifies the element. */
  function Remove(queue: seq<Request>, id: string): seq<Request> {
    if queue == [] then [] else if queue[0].id == id then queue[1..] else [queue[0]] + Remove(queue[1..], id)
  }

  function ExpireOne(s: Sim, r: Request): Sim {
    if s.now >= r.Latest() && r.id in s.rows
    then s.(rows := s.rows[r.id := s.rows[r.id].(phase := ExpiredUndispatched)], queue := Remove(s.queue, r.id))
    else s
  }

  function Expire(s: Sim, snapshot: seq<Request>): Sim
    decreases |snapshot|
  {
    if snapshot == [] then s else Expire(ExpireOne(s, snapshot[0]), snapshot[1..])
  }

  function Eligible(queue: seq<Request>, now: nat, mode: Mode): seq<Keyed<Request>> {
    if queue == [] then []
    else
      var n := |queue| - 1;
      var front := Eligible(queue[..n], now, mode);
      if now + queue[n].profile < queue[n].Latest()
      then front + [Keyed(RankOf(queue[n].AsCandidate(), now, mode), queue[n])]
      else front
  }

  function StartOne(s: Sim, r: Request): Sim {
    if r.id in s.rows
    then s.(queue := Remove(s.queue, r.id), active := Push(s.active, Run(s.now + r.service, r.id)),
            rows := s.rows[r.id := s.rows[r.id].(started := Some(s.now), phase := Running)])
    else s.(queue := Remove(s.queue, r.id), active := Push(s.active, Run(s.now + r.service, r.id)))
  }

  function Dispatch(slots: nat, s: Sim, eligible: seq<Keyed<Request>>): Sim
    decreases |eligible|
  {
    if eligible != [] && |s.active| < slots then Dispatch(slots, StartOne(s, eligible[0].item), eligible[1..]) else s
  }

  /** Everything one iteration does before the clock jumps. */
  function Settle(u: Setup, s: Sim): Sim {
    var released := Release(u, Complete(s));
    var pruned := Expire(released, released.queue);
    Dispatch(u.slots, pruned, Sort(Eligible(pruned.queue, pruned.now, u.mode)))
  }

  function Earlier(x: Option<nat>, y: Option<nat>): Option<nat> {
    if x.None? then y else if y.None? then x else if x.value <= y.value then x else y
  }

  function After(now: nat, t: nat): Option<nat> {
    if t > now then Some(t) else None
  }

  function LeastLatest(queue: seq<Request>): Option<nat> {
    if queue == [] then None else Earlier(LeastLatest(queue[..|queue| - 1]), Some(queue[|queue| - 1].Latest()))
  }

  function NextRelease(u: Setup, s: Sim): Option<nat> {
    if s.cursor < |u.arrivals| then After(s.now, u.arrivals[s.cursor].release) else None
  }

  function NextFinish(s: Sim): Option<nat> {
    if s.active != [] then After(s.now, s.active[0].finish) else None
  }

  function NextExpiry(s: Sim): Option<nat> {
    match LeastLatest(s.queue)
    case None => None
    case Some(t) => After(s.now, t)
  }

  /** `min(next_times)`; `None` is the loop's `break`. */
  function NextTime(u: Setup, s: Sim): Option<nat> {
    Earlier(Earlier(NextRelease(u, s), NextFinish(s)), NextExpiry(s))
  }

  predicate Busy(u: Setup, s: Sim) {
    s.cursor < |u.arrivals| || s.queue != [] || s.active != []
  }

  const START: Sim := Sim(0, 0, [], [], map[])

  function ArrivalKeys(requests: seq<Request>): seq<Keyed<Request>> {
    if requests == [] then []
    else ArrivalKeys(requests[..|requests| - 1])
         + [Keyed(Rank(requests[|requests| - 1].release, 0, 0, requests[|requests| - 1].id), requests[|requests| - 1])]
  }

  function SetupOf(tr: Trace, mode: Mode): Setup {
    Setup(Items(Sort(ArrivalKeys(tr.requests))), tr.slots, mode)
  }
}
