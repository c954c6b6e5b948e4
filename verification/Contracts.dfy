/** Wire contracts (contracts.py): jobs, sessions, receipts, and when a job is still usable. */
module Contracts {
  import opened Basics

  datatype ResultKind = CurrentResult | Historical | ActionProposal
  datatype Workload = Policy | Segmentation | Semantic | Mapping | Query
  datatype Role = Current | Context

  datatype JobState =
    | Queued | Running | Succeeded | Consumed | Rejected | Expired | Stale | Cancelled | Superseded | Failed | Unknown

  datatype Reason =
    | ClockEpochMismatch | SessionEpochMismatch | FutureSnapshot | DeadlineOrFreshnessExpired
    | SupersededByNewerSnapshot | QueueCapacity | NoAllowedEndpoint | NetworkNotAuthorized
    | ExplicitReplacement | DependencyFailed | AttemptOrCostCeiling
    | ConsumerCancelled | CoordinatorShutdown | CoordinatorRestart | BackendCode(code: string)

  datatype Observation = Observation(id: string, source: string, sequence: nat, sha256: string, capture: nat,
                                     available: nat, uncertainty: nat, role: Role, sourceTime: Option<string>)
  {
    predicate Valid() { capture <= available }

    /** Evidence identity: everything but the job-local role. */
    function Identity(): Observation { this.(role := Current) }
  }

  datatype Session = Session(tenant: string, id: string, epoch: nat, taskRevision: string, clockId: string,
                             active: bool, updated: nat, bufferUntil: Option<nat>)

  datatype Job = Job(id: string, tenant: string, sessionId: string, epoch: nat, taskRevision: string, clockId: string,
                     model: string, operation: string, workload: Workload, kind: ResultKind,
                     observations: seq<Observation>, snapshot: nat, deadline: nat, maxAge: Option<nat>,
                     maxUncertainty: nat, priority: nat, sites: seq<string>, dependencies: seq<string>,
                     payload: string, replaceKey: Option<string>, discardable: bool, cacheable: bool)
  {
    predicate Valid() {
      && |observations| <= 32 && |dependencies| <= 32 && priority <= 3
      && (observations == [] ==> workload == Query)
      && snapshot < deadline
      && (forall i, j :: 0 <= i < j < |observations| ==> observations[i].id != observations[j].id)
      && (forall o :: o in observations ==> o.Valid() && o.available <= snapshot && o.uncertainty <= maxUncertainty)
      && (kind != Historical ==> maxAge.Some? && exists o :: o in observations && o.role == Current)
      && (replaceKey.Some? ==> discardable)
      && (workload == Policy ==> !discardable && !cacheable)
      && (cacheable ==> kind == Historical)
      && sites != [] && (forall i, j :: 0 <= i < j < |sites| ==> sites[i] != sites[j])
      && id !in dependencies && (forall i, j :: 0 <= i < j < |dependencies| ==> dependencies[i] != dependencies[j])
    }

    /** The last instant before which a result is useful. */
    function Latest(session: Session): int {
      var byAge := if kind != Historical && maxAge.Some? then LeastFresh(observations, maxAge.value, deadline) else deadline;
      if workload == Policy && session.bufferUntil.Some? then Min(byAge, session.bufferUntil.value) else byAge
    }

    function InvalidReason(session: Session, now: nat, clock: string): Option<Reason> {
      if clockId != clock || session.clockId != clock then Some(ClockEpochMismatch)
      else if !SameGeneration(session) || !session.active then Some(SessionEpochMismatch)
      else if snapshot > now then Some(FutureSnapshot)
      else if now >= Latest(session) then Some(DeadlineOrFreshnessExpired)
      else None
    }

    predicate SameGeneration(session: Session) {
      tenant == session.tenant && sessionId == session.id && epoch == session.epoch && taskRevision == session.taskRevision
    }
  }

  function Min(a: int, b: int): int { if a <= b then a else b }

  function LeastFresh(obs: seq<Observation>, maxAge: int, bound: int): int {
    if obs == [] then bound
    else if obs[0].role == Current
    then LeastFresh(obs[1..], maxAge, Min(bound, obs[0].capture + maxAge - obs[0].uncertainty))
    else LeastFresh(obs[1..], maxAge, bound)
  }

  lemma {:induction false} LeastFreshIsLeast(obs: seq<Observation>, maxAge: int, bound: int, now: int)
    ensures now < LeastFresh(obs, maxAge, bound) <==>
            now < bound && forall o :: o in obs && o.role == Current ==> now - o.capture + o.uncertainty < maxAge
  {
    if obs != [] {
      var next := if obs[0].role == Current then Min(bound, obs[0].capture + maxAge - obs[0].uncertainty) else bound;
      LeastFreshIsLeast(obs[1..], maxAge, next, now);
      assert obs == [obs[0]] + obs[1..];
    }
  }

  /** Not yet past the deadline, the age bound of any current frame at its worst uncertainty, or for a
      policy the announced buffer. */
  ghost predicate InTime(job: Job, session: Session, t: int) {
    && t < job.deadline
    && (job.kind != Historical && job.maxAge.Some? ==>
          forall o :: o in job.observations && o.role == Current ==> t - o.capture + o.uncertainty < job.maxAge.value)
    && (job.workload == Policy && session.bufferUntil.Some? ==> t < session.bufferUntil.value)
  }

  /** The session is open in the very generation the job was made for, under the clock now running. */
  ghost predicate Abreast(job: Job, session: Session, clock: string) {
    && job.clockId == clock && session.clockId == clock && session.active
    && job.tenant == session.tenant && job.sessionId == session.id
    && job.epoch == session.epoch && job.taskRevision == session.taskRevision
  }

  ghost predicate Usable(job: Job, session: Session, now: int, clock: string) {
    Abreast(job, session, clock) && job.snapshot <= now && InTime(job, session, now)
  }

  /** `Latest` is the first instant out of time. */
  lemma LatestMeans(job: Job, session: Session, t: int)
    ensures t < job.Latest(session) <==> InTime(job, session, t)
  {
    if job.kind != Historical && job.maxAge.Some? {
      LeastFreshIsLeast(job.observations, job.maxAge.value, job.deadline, t);
    }
  }

  /** A job has no invalid reason exactly while it is usable, and it lapses as expired, not as stale,
      exactly if nothing but time has passed it by. */
  lemma UsableMeans(job: Job, session: Session, now: nat, clock: string)
    ensures job.InvalidReason(session, now, clock).None? <==> Usable(job, session, now, clock)
    ensures job.InvalidReason(session, now, clock).Some? ==>
              Lapse(job.InvalidReason(session, now, clock).value)
              == if Abreast(job, session, clock) && job.snapshot <= now then Expired else Stale
  {
    LatestMeans(job, session, now);
  }

  /** `"expired" in reason` decides between the two ways a job lapses. */
  function Lapse(reason: Reason): JobState {
    if reason == DeadlineOrFreshnessExpired then Expired else Stale
  }

  datatype Usage = Usage(cost: Option<nat>)

  datatype Prediction = Prediction(payload: string, usage: Usage, firstContent: Option<nat>)

  datatype Receipt = Receipt(jobId: string, request: Job, state: JobState, endpoint: Option<string>,
                             reason: Option<Reason>, submitted: nat, started: Option<nat>, completed: Option<nat>,
                             computed: Option<nat>, firstContent: Option<nat>, prediction: Option<string>,
                             usage: Option<Usage>, cacheHit: bool, consumedBy: Option<string>, consumedAt: Option<nat>)

  function NewReceipt(job: Job, reason: Option<Reason>, now: nat): Receipt {
    Receipt(job.id, job, if reason.Some? then Rejected else Queued, None, reason, now,
            None, None, None, None, None, None, false, None, None)
  }

  /** The states from which no result can ever be delivered. */
  predicate Dead(s: JobState) {
    s in {Rejected, Expired, Stale, Cancelled, Superseded, Failed, Unknown}
  }

  predicate Delivered(s: JobState) {
    s == Succeeded || s == Consumed
  }

  /** The cache key: the fingerprint of the model contract and of the job without its identity and
      scheduling fields, taken as those values themselves. */
  datatype CacheKey = CacheKey(contract: string, work: Job)

  function Work(job: Job): Job {
    job.(id := "", deadline := 0, priority := 0, sites := [], dependencies := [], replaceKey := None, discardable := false)
  }

  function KeyOf(job: Job, contract: string): Option<CacheKey> {
    if !job.cacheable || job.kind != Historical then None else Some(CacheKey(contract, Work(job)))
  }
}
