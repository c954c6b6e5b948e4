/** The durable journal and admission ledger (store.py) as a value: what each transaction makes
    of the tables, and the spending invariant. */
module Ledger {
  import opened Basics
  import opened Contracts
  import opened Scheduling
  import opened Sums

  datatype Disposition = Reserved | Settled | Unresolved

  datatype Attempt = Attempt(pool: string, endpoint: string, quote: nat, actual: Option<nat>, disposition: Disposition)

  /** A row of the jobs table; `rowid` is its place in submission order. */
  datatype Row = Row(job: Job, receipt: Receipt, rowid: nat)

  datatype Disk = Disk(sessions: map<string, Session>, jobs: map<string, Row>, order: seq<string>,
                       observations: map<(string, string), Observation>, attempts: map<string, Attempt>,
                       quarantined: set<string>, maxAttempts: nat, maxMicrousd: nat)

  function EmptyDisk(maxAttempts: nat, maxMicrousd: nat): Disk {
    Disk(map[], map[], [], map[], map[], {}, maxAttempts, maxMicrousd)
  }

  // ---- sessions and receipts ----

  function PutSession(d: Disk, s: Session): Disk { d.(sessions := d.sessions[s.id := s]) }

  function SetReceipt(d: Disk, id: string, r: Receipt): Disk {
    if id in d.jobs then d.(jobs := d.jobs[id := d.jobs[id].(receipt := r)]) else d
  }

  function SetState(d: Disk, id: string, state: JobState, reason: Reason): Disk {
    if id in d.jobs then SetReceipt(d, id, d.jobs[id].receipt.(state := state, reason := Some(reason))) else d
  }

  function StateOf(d: Disk, id: string): JobState
    requires id in d.jobs
  {
    d.jobs[id].receipt.state
  }

  /** `jobs(tenant, states)`: ids in submission order. */
  function InStates(d: Disk, ids: seq<string>, states: set<JobState>): seq<string> {
    if ids == [] then []
    else (if ids[0] in d.jobs && StateOf(d, ids[0]) in states then [ids[0]] else []) + InStates(d, ids[1..], states)
  }

  // ---- admission of a job ----

  /** Keep the first body seen for each source id; a different body under the same id is refused. */
  function AddObservations(known: map<(string, string), Observation>, session: string, obs: seq<Observation>)
    : Option<map<(string, string), Observation>>
    decreases |obs|
  {
    if obs == [] then Some(known) else
    var key := (session, obs[0].id);
    if key in known && known[key] != obs[0].Identity() then None
    else AddObservations(if key in known then known else known[key := obs[0].Identity()], session, obs[1..])
  }

  /** `add_job`; the whole transaction or nothing. */
  function AddJob(d: Disk, job: Job, receipt: Receipt): Option<Disk> {
    match AddObservations(d.observations, job.sessionId, job.observations)
    case None => None
    case Some(known) =>
      Some(d.(observations := known, jobs := d.jobs[job.id := Row(job, receipt, |d.order|)], order := d.order + [job.id]))
  }

  // ---- attempts and the budget ----

  function Cost(a: Attempt): nat { if a.actual.Some? then a.actual.value else a.quote }

  ghost function Costs(d: Disk): map<string, int> { map j | j in d.attempts :: Cost(d.attempts[j]) }

  ghost function Knowns(d: Disk): map<string, int> {
    map j | j in d.attempts :: if d.attempts[j].actual.Some? then d.attempts[j].actual.value else 0
  }

  ghost function Holds(d: Disk): map<string, int> {
    map j | j in d.attempts :: if d.attempts[j].actual.Some? then 0 else d.attempts[j].quote
  }

  /** `known_microusd`. */
  ghost function Known(d: Disk): int { Sum(Knowns(d)) }

  /** `held_microusd`. */
  ghost function Held(d: Disk): int { Sum(Holds(d)) }

  ghost predicate CanReserve(d: Disk, quote: nat) {
    |d.attempts| < d.maxAttempts && Known(d) + Held(d) + quote <= d.maxMicrousd
  }

  function Reserve(d: Disk, id: string, ep: Endpoint): Disk {
    d.(attempts := d.attempts[id := Attempt(ep.pool, ep.id, ep.reserve, None, Reserved)])
  }

  function SettleAttempt(a: Attempt, cost: Option<nat>): Attempt {
    a.(actual := cost, disposition := if cost.Some? then Settled else Unresolved)
  }

  function Settle(d: Disk, id: string, cost: Option<nat>): Disk {
    if id in d.attempts then d.(attempts := d.attempts[id := SettleAttempt(d.attempts[id], cost)]) else d
  }

  datatype Entry = Entry(id: string, actual: int, evidence: string)

  /** The batch has an entry for this attempt. */
  predicate Named(entries: seq<Entry>, id: string) { exists i :: 0 <= i < |entries| && entries[i].id == id }

  predicate WellFormed(e: Entry) {
    e.id != "" && |e.id| <= 256 && 0 <= e.actual && e.evidence != "" && |e.evidence| <= 1024
  }

  /** All checks of a batch come before any of its updates. */
  predicate Reconcilable(d: Disk, entries: seq<Entry>) {
    && (forall i :: 0 <= i < |entries| ==> WellFormed(entries[i]))
    && (forall i, j :: 0 <= i < j < |entries| ==> entries[i].id != entries[j].id)
    && (forall i :: 0 <= i < |entries| ==> entries[i].id in d.attempts && d.attempts[entries[i].id].actual.None?)
  }

  function Reconcile(d: Disk, entries: seq<Entry>): Disk
    requires forall i :: 0 <= i < |entries| ==> 0 <= entries[i].actual
  {
    if entries == [] then d
    else
      var n := |entries| - 1;
      Settle(Reconcile(d, entries[..n]), entries[n].id, Some(entries[n].actual))
  }

  function Extend(d: Disk, maxAttempts: nat, maxMicrousd: nat, approval: string): Result<Disk> {
    if approval == "" || maxAttempts < d.maxAttempts || maxMicrousd < d.maxMicrousd then Err(Error.Value)
    else Ok(d.(maxAttempts := maxAttempts, maxMicrousd := maxMicrousd))
  }

  // ---- recovery ----

  predicate Pending(state: JobState) { state == Queued || state == Running }

  function RecoverReceipt(r: Receipt): Receipt {
    if Pending(r.state)
    then r.(state := if r.state == Running then Unknown else Cancelled, reason := Some(CoordinatorRestart)) else r
  }

  predicate WasRunning(d: Disk, id: string) { id in d.jobs && StateOf(d, id) == Running }

  function RecoverAttempt(d: Disk, id: string): Attempt
    requires id in d.attempts
  {
    var a := d.attempts[id];
    if WasRunning(d, id) then SettleAttempt(a, None)
    else if a.disposition == Reserved then a.(disposition := Unresolved)
    else a
  }

  /** `recover`: nothing pending stays pending, every pool that may still hold unconfirmed work is
      quarantined, every session is closed. */
  function Recover(d: Disk): Disk {
    d.(jobs := map id | id in d.jobs :: d.jobs[id].(receipt := RecoverReceipt(d.jobs[id].receipt)),
       attempts := map id | id in d.attempts :: RecoverAttempt(d, id),
       quarantined := d.quarantined + (set id |
                         id in d.attempts && (WasRunning(d, id) || d.attempts[id].disposition == Reserved)
                         :: d.attempts[id].pool),
       sessions := map sid | sid in d.sessions :: d.sessions[sid].(active := false))
  }

  // ---- the spending invariant ----

  /** What an attempt counts for: its quote until its charge is both known and safe from recovery,
      and never more than its quote. */
  function Charge(d: Disk, id: string): nat
    requires id in d.attempts
  {
    var a := d.attempts[id];
    if a.actual.Some? && !WasRunning(d, id) && a.actual.value < a.quote then a.actual.value else a.quote
  }

  ghost function Charges(d: Disk): map<string, int> { map j | j in d.attempts :: Charge(d, j) }

  function Overrun(a: Attempt): nat {
    if a.actual.Some? && a.actual.value > a.quote then a.actual.value - a.quote else 0
  }

  ghost function Overruns(d: Disk): map<string, int> { map j | j in d.attempts :: Overrun(d.attempts[j]) }

  ghost predicate Solvent(d: Disk) {
    |d.attempts| <= d.maxAttempts && Sum(Charges(d)) <= d.maxMicrousd
  }

  /** Known and held spend exceed the ceiling by no more than the overruns of settled attempts. */
  lemma SpendBounded(d: Disk)
    requires Solvent(d)
    ensures |d.attempts| <= d.maxAttempts
    ensures Known(d) + Held(d) <= d.maxMicrousd + Sum(Overruns(d))
  {
    SumAdds(Knowns(d), Holds(d), Costs(d));
    var both := map j | j in d.attempts :: Charge(d, j) as int + Overrun(d.attempts[j]);
    SumAdds(Charges(d), Overruns(d), both);
    SumAtMost(Costs(d), both);
  }

  /** No attempt counts for more than before, and the caps have not shrunk. */
  ghost predicate NoDearer(d: Disk, e: Disk) {
    && e.attempts.Keys == d.attempts.Keys
    && d.maxAttempts <= e.maxAttempts && d.maxMicrousd <= e.maxMicrousd
    && forall j :: j in d.attempts ==> Charge(e, j) <= Charge(d, j)
  }

  lemma SolventKept(d: Disk, e: Disk)
    requires Solvent(d) && NoDearer(d, e)
    ensures Solvent(e)
  {
    assert |e.attempts| == |e.attempts.Keys| == |d.attempts|;
    SumAtMost(Charges(e), Charges(d));
  }

  lemma ChargesAreSpent(d: Disk)
    requires forall j :: j in d.attempts && d.attempts[j].actual.Some? ==> !WasRunning(d, j)
    ensures Sum(Charges(d)) <= Known(d) + Held(d)
  {
    SumAdds(Knowns(d), Holds(d), Costs(d));
    SumAtMost(Charges(d), Costs(d));
  }

  lemma ReserveCharges(d: Disk, id: string, ep: Endpoint)
    requires id !in d.attempts
    ensures Charges(Reserve(d, id, ep)) == Charges(d)[id := ep.reserve]
  {
    var e := Reserve(d, id, ep);
    forall j | j in d.attempts ensures Charge(e, j) == Charge(d, j) { }
    assert Charge(e, id) == ep.reserve;
    var before, after := Charges(d)[id := ep.reserve], Charges(e);
    assert after.Keys == before.Keys;
  }

  lemma ReserveSolvent(d: Disk, id: string, ep: Endpoint)
    requires Solvent(d) && id !in d.attempts && CanReserve(d, ep.reserve)
    requires forall j :: j in d.attempts && d.attempts[j].actual.Some? ==> !WasRunning(d, j)
    ensures Solvent(Reserve(d, id, ep))
  {
    ChargesAreSpent(d);
    ReserveCharges(d, id, ep);
    SumPut(Charges(d), id, ep.reserve);
    AddKey(d.attempts, Reserve(d, id, ep).attempts, id);
  }

  lemma AddKey(m: map<string, Attempt>, n: map<string, Attempt>, id: string)
    requires id !in m && n.Keys == m.Keys + {id}
    ensures |n| == |m| + 1
  {
    assert |n| == |n.Keys| && |m| == |m.Keys|;
  }
}
