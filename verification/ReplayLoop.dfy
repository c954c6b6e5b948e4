/** `replay` as the source writes it: nested loops over a clock, a cursor, a queue, a heap and
    rows, followed by the tallies. */
module ReplayLoop {
  import opened Basics
  import opened Order
  import opened Scheduling
  import opened Replay
  import opened ReplayCore
  import opened ReplayStep
  import opened ReplayRun
  import Sums

  /** The event loop, entered at most 3n+1 times. */
  method RunLoop(tr: Trace, mode: Mode) returns (s: Sim, ghost rounds: nat)
    requires tr.Valid()
    ensures s == Final(tr, mode)
    ensures rounds <= 3 * |tr.requests| + 1
  {
    rounds := 0;
    var u := SetupOf(tr, mode);
    ghost var reqs := ById(tr.requests);
    SetupReady(tr, mode);
    var now: nat, cursor: nat := 0, 0;
    var queue: seq<Request>, active: seq<Run>, rows: map<string, Row> := [], [], map[];
    while cursor < |u.arrivals| || queue != [] || active != []
      invariant AtTop(u, reqs, Sim(now, cursor, queue, active, rows))
      invariant Loop(u, reqs, Sim(now, cursor, queue, active, rows)) == Loop(u, reqs, START)
      invariant rounds + Toil(u, Sim(now, cursor, queue, active, rows)) <= 3 * |tr.requests| + 1
      decreases Work(u, Sim(now, cursor, queue, active, rows)), if Due(u, Sim(now, cursor, queue, active, rows)) then 0 else 1
    {
      ghost var top := Sim(now, cursor, queue, active, rows);
      Iterates(u, reqs, top);
      rounds := rounds + 1;
      active, rows := PopFinished(now, cursor, queue, active, rows);
      cursor, queue, rows := TakeArrivals(u, now, cursor, queue, active, rows);
      queue, rows := DropExpired(now, cursor, queue, active, rows);
      queue, active, rows := StartEligible(u, now, cursor, queue, active, rows);
      var next := NextTime(u, Sim(now, cursor, queue, active, rows));
      if next.None? {
        BreakAbandonsNothing(u, Sim(now, cursor, queue, active, rows));
        break;
      }
      now := next.value;
    }
    s := Sim(now, cursor, queue, active, rows);
  }

  /** A bound on the rounds still to come. */
  ghost function Toil(u: Setup, s: Sim): int { Work(u, s) + if Due(u, s) then 0 else 1 }

  method PopFinished(now: nat, cursor: nat, queue: seq<Request>, active0: seq<Run>, rows0: map<string, Row>)
    returns (active: seq<Run>, rows: map<string, Row>)
    ensures Sim(now, cursor, queue, active, rows) == Complete(Sim(now, cursor, queue, active0, rows0))
  {
    active, rows := active0, rows0;
    while active != [] && active[0].finish <= now
      invariant Complete(Sim(now, cursor, queue, active, rows)) == Complete(Sim(now, cursor, queue, active0, rows0))
      decreases |active|
    {
      var run := active[0];
      active := active[1..];
      if run.id in rows {
        rows := rows[run.id := FinishRow(rows[run.id], run.finish)];
      }
    }
  }

  method TakeArrivals(u: Setup, now: nat, cursor0: nat, queue0: seq<Request>, active: seq<Run>, rows0: map<string, Row>)
    returns (cursor: nat, queue: seq<Request>, rows: map<string, Row>)
    ensures Sim(now, cursor, queue, active, rows) == Release(u, Sim(now, cursor0, queue0, active, rows0))
  {
    cursor, queue, rows := cursor0, queue0, rows0;
    while cursor < |u.arrivals| && u.arrivals[cursor].release <= now
      invariant Release(u, Sim(now, cursor, queue, active, rows)) == Release(u, Sim(now, cursor0, queue0, active, rows0))
      decreases |u.arrivals| - cursor
    {
      var r := u.arrivals[cursor];
      queue := queue + [r];
      rows := rows[r.id := NewRow(r)];
      cursor := cursor + 1;
    }
  }

  method DropExpired(now: nat, cursor: nat, queue0: seq<Request>, active: seq<Run>, rows0: map<string, Row>)
    returns (queue: seq<Request>, rows: map<string, Row>)
    ensures Sim(now, cursor, queue, active, rows) == Expire(Sim(now, cursor, queue0, active, rows0), queue0)
  {
    queue, rows := queue0, rows0;
    for i := 0 to |queue0|
      invariant Expire(Sim(now, cursor, queue, active, rows), queue0[i..])
                == Expire(Sim(now, cursor, queue0, active, rows0), queue0)
    {
      var r := queue0[i];
      assert queue0[i..][1..] == queue0[i + 1..];
      if now >= r.Latest() && r.id in rows {
        rows := rows[r.id := rows[r.id].(phase := ExpiredUndispatched)];
        queue := Remove(queue, r.id);
      }
    }
  }

  method StartEligible(u: Setup, now: nat, cursor: nat, queue0: seq<Request>, active0: seq<Run>, rows0: map<string, Row>)
    returns (queue: seq<Request>, active: seq<Run>, rows: map<string, Row>)
    ensures Sim(now, cursor, queue, active, rows)
            == Dispatch(u.slots, Sim(now, cursor, queue0, active0, rows0), Sort(Eligible(queue0, now, u.mode)))
  {
    var eligible := Sort(Eligible(queue0, now, u.mode));
    queue, active, rows := queue0, active0, rows0;
    while eligible != [] && |active| < u.slots
      invariant Dispatch(u.slots, Sim(now, cursor, queue, active, rows), eligible)
                == Dispatch(u.slots, Sim(now, cursor, queue0, active0, rows0), Sort(Eligible(queue0, now, u.mode)))
      decreases |eligible|
    {
      var r := eligible[0].item;
      eligible := eligible[1..];
      queue := Remove(queue, r.id);
      if r.id in rows {
        rows := rows[r.id := rows[r.id].(started := Some(now), phase := Running)];
      }
      active := Push(active, Run(now + r.service, r.id));
    }
  }

  // ---- tallies ----

  datatype Group = Group(offered: nat, states: map<Phase, nat>)

  const NEW_GROUP := Group(0, map[InTime := 0, Late := 0, ExpiredUndispatched := 0])

  function Get(states: map<Phase, nat>, p: Phase): nat {
    if p in states then states[p] else 0
  }

  /** How many rows of a workload are in a phase. */
  function CountPhase(rows: seq<Row>, workload: string, p: Phase): nat {
    if rows == [] then 0 else
    CountPhase(rows[..|rows| - 1], workload, p)
    + if rows[|rows| - 1].workload == workload && rows[|rows| - 1].phase == p then 1 else 0
  }

  function CountWorkload(rows: seq<Row>, workload: string): nat {
    if rows == [] then 0 else
    CountWorkload(rows[..|rows| - 1], workload) + if rows[|rows| - 1].workload == workload then 1 else 0
  }

  ghost function Offered(groups: map<string, Group>): map<string, int> {
    map w | w in groups :: groups[w].offered
  }

  ghost predicate Tallies(groups: map<string, Group>, rows: seq<Row>) {
    && (forall w :: w in groups ==> groups[w].offered == CountWorkload(rows, w))
    && (forall w, p :: w in groups ==> Get(groups[w].states, p) == CountPhase(rows, w, p))
    && Sums.Sum(Offered(groups)) == |rows|
  }

  lemma {:induction false} CountZero(rows: seq<Row>, workload: string, p: Phase)
    requires CountWorkload(rows, workload) == 0
    ensures CountPhase(rows, workload, p) == 0
  {
    if rows != [] { CountZero(rows[..|rows| - 1], workload, p); }
  }

  lemma TallyCounts(rows: seq<Row>, row: Row, w: string, p: Phase)
    ensures CountWorkload(rows + [row], w) == CountWorkload(rows, w) + if row.workload == w then 1 else 0
    ensures CountPhase(rows + [row], w, p)
            == CountPhase(rows, w, p) + if row.workload == w && row.phase == p then 1 else 0
  {
    assert (rows + [row])[..|rows|] == rows;
  }

  lemma TallyOne(groups: map<string, Group>, rows: seq<Row>, row: Row, g: Group)
    requires Tallies(groups, rows)
    requires row.workload !in groups ==> CountWorkload(rows, row.workload) == 0
    requires g == if row.workload in groups then groups[row.workload] else NEW_GROUP
    ensures var next := Group(g.offered + 1, g.states[row.phase := Get(g.states, row.phase) + 1]);
            Tallies(groups[row.workload := next], rows + [row])
  {
    hide CountWorkload, CountPhase, Sums.Sum;
    var next := Group(g.offered + 1, g.states[row.phase := Get(g.states, row.phase) + 1]);
    var after, more := groups[row.workload := next], rows + [row];
    forall w | w in after ensures after[w].offered == CountWorkload(more, w) { TallyCounts(rows, row, w, row.phase); }
    forall w, p | w in after ensures Get(after[w].states, p) == CountPhase(more, w, p) {
      TallyCounts(rows, row, w, p);
      if w !in groups { CountZero(rows, w, p); }
    }
    assert Offered(after) == Offered(groups)[row.workload := next.offered];
    Sums.SumPut(Offered(groups), row.workload, next.offered);
  }

  /** `by_workload`: each group counts its workload's rows by state, and the groups add up to all rows. */
  method Summarize(records: seq<Row>) returns (groups: map<string, Group>)
    ensures Tallies(groups, records)
    ensures forall i :: 0 <= i < |records| ==> records[i].workload in groups
  {
    groups := map[];
    for i := 0 to |records|
      invariant Tallies(groups, records[..i])
      invariant forall j :: 0 <= j < i ==> records[j].workload in groups
      invariant forall w :: w !in groups ==> CountWorkload(records[..i], w) == 0
    {
      var row := records[i];
      var g := if row.workload in groups then groups[row.workload] else NEW_GROUP;
      assert records[..i + 1] == records[..i] + [row];
      assert records[..i + 1][..i] == records[..i];
      TallyOne(groups, records[..i], row, g);
      groups := groups[row.workload := Group(g.offered + 1, g.states[row.phase := Get(g.states, row.phase) + 1])];
    }
    assert records[..|records|] == records;
  }

  lemma {:induction false} ThreeOutcomes(rows: seq<Row>, workload: string)
    requires forall i :: 0 <= i < |rows| ==> rows[i].phase in {InTime, Late, ExpiredUndispatched}
    ensures CountWorkload(rows, workload)
            == CountPhase(rows, workload, InTime) + CountPhase(rows, workload, Late)
               + CountPhase(rows, workload, ExpiredUndispatched)
  {
    if rows != [] { ThreeOutcomes(rows[..|rows| - 1], workload); }
  }

  /** The records are the rows in order of arrival. */
  ghost predicate RecordsOf(arrivals: seq<Request>, rows: map<string, Row>, records: seq<Row>) {
    && |records| == |arrivals|
    && forall i :: 0 <= i < |arrivals| ==> arrivals[i].id in rows && records[i] == rows[arrivals[i].id]
  }

  ghost predicate Balanced(groups: map<string, Group>) {
    forall w :: w in groups ==>
      groups[w].offered == Get(groups[w].states, InTime) + Get(groups[w].states, Late)
                           + Get(groups[w].states, ExpiredUndispatched)
  }

  /** Every offered request is in the records and has ended in one of the three ways. */
  lemma RecordsEnd(tr: Trace, mode: Mode, records: seq<Row>)
    requires tr.Valid() && RecordsOf(SetupOf(tr, mode).arrivals, Final(tr, mode).rows, records)
    ensures |records| == |tr.requests|
    ensures forall i :: 0 <= i < |records| ==> EndsProperly(SetupOf(tr, mode).arrivals[i], records[i], Final(tr, mode).now)
  {
    ArrivalsSorted(tr, mode);
    EveryRequestEnds(tr, mode);
    var xs := SetupOf(tr, mode).arrivals;
    forall i | 0 <= i < |records| ensures EndsProperly(xs[i], records[i], Final(tr, mode).now) {
      assert xs[i] in tr.requests;
    }
  }

  lemma TalliesBalance(records: seq<Row>, groups: map<string, Group>)
    requires Tallies(groups, records)
    requires forall i :: 0 <= i < |records| ==> records[i].phase in {InTime, Late, ExpiredUndispatched}
    ensures Balanced(groups)
  {
    forall w | w in groups
      ensures groups[w].offered == Get(groups[w].states, InTime) + Get(groups[w].states, Late)
                                   + Get(groups[w].states, ExpiredUndispatched)
    {
      ThreeOutcomes(records, w);
    }
  }

  method Collect(arrivals: seq<Request>, rows: map<string, Row>) returns (records: seq<Row>)
    requires forall i :: 0 <= i < |arrivals| ==> arrivals[i].id in rows
    ensures RecordsOf(arrivals, rows, records)
  {
    records := [];
    for i := 0 to |arrivals|
      invariant |records| == i
      invariant forall j :: 0 <= j < i ==> records[j] == rows[arrivals[j].id]
    {
      records := records + [rows[arrivals[i].id]];
    }
  }

  lemma AllRecorded(tr: Trace, mode: Mode)
    requires tr.Valid()
    ensures forall i :: 0 <= i < |SetupOf(tr, mode).arrivals| ==> SetupOf(tr, mode).arrivals[i].id in Final(tr, mode).rows
  {
    ArrivalsSorted(tr, mode);
    EveryRequestEnds(tr, mode);
    var xs := SetupOf(tr, mode).arrivals;
    forall i | 0 <= i < |xs| ensures xs[i].id in Final(tr, mode).rows {
      assert xs[i] in tr.requests;
    }
  }

  /** `replay`: the records are the final rows, each request among them, and each group's outcomes
      add up to what it offered. */
  method ReplayTrace(tr: Trace, mode: Mode) returns (records: seq<Row>, groups: map<string, Group>, elapsed: nat)
    requires tr.Valid()
    ensures RecordsOf(SetupOf(tr, mode).arrivals, Final(tr, mode).rows, records)
    ensures |records| == |tr.requests| && elapsed == Final(tr, mode).now
    ensures forall i :: 0 <= i < |records| ==> EndsProperly(SetupOf(tr, mode).arrivals[i], records[i], elapsed)
    ensures Tallies(groups, records) && Balanced(groups)
  {
    hide Tallies, Balanced, Final, Trace.Valid, RanThrough;
    var s: Sim;
    ghost var rounds: nat;
    s, rounds := RunLoop(tr, mode);
    AllRecorded(tr, mode);
    records := Collect(SetupOf(tr, mode).arrivals, s.rows);
    RecordsEnd(tr, mode, records);
    groups := Summarize(records);
    TalliesBalance(records, groups);
    elapsed := s.now;
  }
}
