/** Freshness across clocks: mapped observations (hosts.py), clock mappings (clocks.py) and the
    delivery fence (client.py). Times are integers of nanoseconds on the clock named beside them. */
module Freshness {
  import opened Basics
  import opened Contracts

  // ---- clocks ----

  /** A clock that is moved by hand and only forward. */
  class ManualClock {
    const id: string
    var value: int

    constructor (value: int, id: string)
      ensures this.value == value && this.id == id
    {
      this.value, this.id := value, id;
    }

    method AdvanceTo(v: int) returns (ok: bool)
      modifies this
      ensures ok == (old(value) <= v)
      ensures value == if ok then v else old(value)
    {
      if v < value {
        return false;
      }
      value := v;
      ok := true;
    }
  }

  datatype ClockMap = ClockMap(source: string, target: string, offset: int, error: int, validUntil: int)
  {
    predicate Valid() { source != "" && target != "" && error >= 0 && validUntil >= 0 }

    /** A timestamp of the source clock on the target clock, and how far off that may be. */
    function Map(time: int, targetClock: string, now: int): Result<Mapped> {
      if time < 0 || now < 0 then Err(Error.Value)
      else if targetClock != target || now > validUntil then Err(Error.Value)
      else if time + offset < 0 then Err(Error.Value)
      else Ok(Mapped(time + offset, error))
    }

    /** The true offset between the two clocks is within the declared error. */
    predicate Covers(trueOffset: int) { offset - error <= trueOffset <= offset + error }
  }

  datatype Mapped = Mapped(time: nat, error: int)

  /** What a mapping promises: the true target time is within the returned error of the returned time. */
  lemma MapBrackets(m: ClockMap, time: int, targetClock: string, now: int, trueOffset: int)
    requires m.Covers(trueOffset) && m.Map(time, targetClock, now).Ok?
    ensures var r := m.Map(time, targetClock, now).value;
            r.time - r.error <= time + trueOffset <= r.time + r.error
  {
  }

  // ---- observations ----

  /** A source frame: times on the source's own monotonic clock. */
  datatype Frame = Frame(id: string, camera: string, sha256: string, captured: int, available: int, simTime: string)

  /** `physical_observation`, after the frame's bytes were verified. */
  function PhysicalObservation(f: Frame, sequence: nat, m: ClockMap, clockId: string, now: int,
                               role: Role): Result<Observation>
    requires m.Valid()
  {
    match m.Map(f.captured, clockId, now)
    case Err(e) => Err(e)
    case Ok(capture) =>
      match m.Map(f.available, clockId, now)
      case Err(e) => Err(e)
      case Ok(available) =>
        var o := Observation(f.id, f.camera, sequence, f.sha256, capture.time, available.time, capture.error, role,
                             Some("sim:" + f.simTime));
        if o.Valid() then Ok(o) else Err(Error.Value)
  }

  /** The observation stands for a source capture time under a mapping. */
  predicate Stands(o: Observation, captured: int, m: ClockMap) {
    o.capture == captured + m.offset && o.uncertainty == m.error
  }

  lemma PhysicalStands(f: Frame, sequence: nat, m: ClockMap, clockId: string, now: int, role: Role)
    requires m.Valid() && PhysicalObservation(f, sequence, m, clockId, now, role).Ok?
    ensures var o := PhysicalObservation(f, sequence, m, clockId, now, role).value;
            Stands(o, f.captured, m) && o.Valid() && o.role == role && m.target == clockId && now <= m.validUntil
  {
  }

  datatype Image = Image(id: string, timestamp: int, sha256: string, sourceTime: string)

  /** The evidence loop of `streambudget_job`: every image needs a host sequence number and
      availability, and is mapped with the mapping's error as its uncertainty. */
  method StreamObservations(images: seq<Image>, m: ClockMap, clockId: string, now: int,
                            sequences: map<string, nat>, availables: map<string, int>)
    returns (r: Result<seq<Observation>>)
    requires m.Valid()
    ensures r.Ok? <==> forall i :: 0 <= i < |images| ==> Evidenced(images[i], m, clockId, now, sequences, availables)
    ensures r.Err? ==> r.error == Error.Value
    ensures r.Ok? ==> |r.value| == |images|
    ensures r.Ok? ==> forall i :: 0 <= i < |images| ==>
              && Stands(r.value[i], images[i].timestamp, m) && r.value[i].id == images[i].id
              && r.value[i].sequence == sequences[images[i].id] && r.value[i].available == availables[images[i].id] + m.offset
              && r.value[i].sha256 == images[i].sha256 && r.value[i].role == Current && r.value[i].Valid()
  {
    var obs: seq<Observation> := [];
    for i := 0 to |images|
      invariant |obs| == i
      invariant forall k :: 0 <= k < i ==> Evidenced(images[k], m, clockId, now, sequences, availables)
      invariant forall k :: 0 <= k < i ==>
                  && Stands(obs[k], images[k].timestamp, m) && obs[k].id == images[k].id
                  && obs[k].sequence == sequences[images[k].id] && obs[k].available == availables[images[k].id] + m.offset
                  && obs[k].sha256 == images[k].sha256 && obs[k].role == Current && obs[k].Valid()
    {
      var image := images[i];
      if image.id !in availables || image.id !in sequences {
        return Err(Error.Value);
      }
      var capture := m.Map(image.timestamp, clockId, now);
      if capture.Err? {
        return Err(capture.error);
      }
      var available := m.Map(availables[image.id], clockId, now);
      if available.Err? {
        return Err(available.error);
      }
      var o := Observation(image.id, "streambudget", sequences[image.id], image.sha256, capture.value.time,
                           available.value.time, capture.value.error, Current, Some(image.sourceTime));
      if !o.Valid() {
        return Err(Error.Value);
      }
      obs := obs + [o];
    }
    r := Ok(obs);
  }

  predicate Evidenced(image: Image, m: ClockMap, clockId: string, now: int, sequences: map<string, nat>,
                      availables: map<string, int>) {
    && image.id in availables && image.id in sequences
    && 0 <= image.timestamp <= availables[image.id] && 0 <= now <= m.validUntil && m.target == clockId
    && image.timestamp + m.offset >= 0
  }

  // ---- the delivery fence ----

  /** What the consumer knows when the reply arrives, on its own clock. */
  datatype Local = Local(tenant: string, session: string, epoch: nat, task: string, consumer: string, now: int, clock: string,
                         fromServer: ClockMap, maxError: int, usefulUntil: Option<int>)

  datatype DeliveryCheck = DeliveryCheck(jobId: string, validUntil: int, checkedAt: int)

  /** The reply is this job's, claimed by this consumer, and nothing moved on meanwhile. */
  predicate Claimed(job: Job, receipt: Receipt, q: Local) {
    && receipt.request == job && receipt.jobId == job.id
    && receipt.state == Consumed && receipt.consumedBy == Some(q.consumer) && receipt.prediction.Some?
    && job.tenant == q.tenant && job.sessionId == q.session && job.epoch == q.epoch && job.taskRevision == q.task
    && q.fromServer.source == job.clockId && q.fromServer.error <= q.maxError
  }

  predicate Bounded(q: Local) { q.maxError >= 0 && (q.usefulUntil.Some? ==> q.usefulUntil.value >= 0) }

  /** Every timestamp of the job has a place on the local clock now. */
  predicate Mappable(job: Job, q: Local) {
    var m := q.fromServer;
    && 0 <= q.now <= m.validUntil && m.target == q.clock && job.deadline + m.offset >= 0
    && (job.kind != Historical ==> FramesMappable(job, q))
  }

  /** The running minimum of `validate_delivery`. */
  function LatestLocal(obs: seq<Observation>, maxAge: int, m: ClockMap, bound: int): int {
    if obs == [] then bound else
    var n := |obs| - 1;
    var latest := LatestLocal(obs[..n], maxAge, m, bound);
    if obs[n].role == Current then Min(latest, obs[n].capture + m.offset + maxAge - obs[n].uncertainty - m.error) else latest
  }

  function Latest(job: Job, q: Local): int
    requires job.Valid()
  {
    var bound := job.deadline + q.fromServer.offset - q.fromServer.error;
    var aged := if job.kind != Historical
                then LatestLocal(job.observations, job.maxAge.value, q.fromServer, bound) else bound;
    if job.workload == Policy && q.usefulUntil.Some? then Min(aged, q.usefulUntil.value) else aged
  }

  predicate FramesMappable(job: Job, q: Local) {
    forall o :: o in job.observations && o.role == Current ==> o.capture + q.fromServer.offset >= 0
  }

  /** The loop over the evidence. */
  method LowerByAge(job: Job, q: Local, bound: int) returns (r: Result<int>)
    requires job.maxAge.Some? && 0 <= q.now <= q.fromServer.validUntil && q.fromServer.target == q.clock
    ensures r == if FramesMappable(job, q) then Ok(LatestLocal(job.observations, job.maxAge.value, q.fromServer, bound))
                 else Err(Error.Value)
  {
    var latest := bound;
    for i := 0 to |job.observations|
      invariant latest == LatestLocal(job.observations[..i], job.maxAge.value, q.fromServer, bound)
      invariant forall k :: 0 <= k < i && job.observations[k].role == Current ==>
                job.observations[k].capture + q.fromServer.offset >= 0
    {
      assert job.observations[..i + 1][..i] == job.observations[..i];
      var o := job.observations[i];
      if o.role == Current {
        var capture := q.fromServer.Map(o.capture, q.clock, q.now);
        if capture.Err? {
          assert o in job.observations;
          return Err(Error.Value);
        }
        latest := Min(latest, capture.value.time + job.maxAge.value - o.uncertainty - capture.value.error);
      }
    }
    assert job.observations[..|job.observations|] == job.observations;
    r := Ok(latest);
  }

  /** The fence accepts exactly when the reply is claimed, mappable, has its policy deadline if it needs
      one, and is still inside the least of its local deadlines; and it says which kind of refusal it is. */
  method ValidateDelivery(job: Job, receipt: Receipt, q: Local) returns (r: Result<DeliveryCheck>)
    requires job.Valid() && q.fromServer.Valid()
    ensures r.Ok? <==>
            && Bounded(q) && Claimed(job, receipt, q) && Mappable(job, q)
            && (job.workload == Policy ==> q.usefulUntil.Some?) && q.now < Latest(job, q)
    ensures r.Ok? ==> r.value == DeliveryCheck(job.id, Latest(job, q), q.now)
    ensures r.Err? ==>
              r.error == if !Bounded(q) || (Claimed(job, receipt, q) && !Mappable(job, q)) then Error.Value else Permission
  {
    if q.maxError < 0 || (q.usefulUntil.Some? && q.usefulUntil.value < 0) {
      return Err(Error.Value);
    }
    if receipt.request != job || receipt.jobId != job.id {
      return Err(Permission);
    }
    if receipt.state != Consumed || receipt.consumedBy != Some(q.consumer) || receipt.prediction.None? {
      return Err(Permission);
    }
    if !(job.tenant == q.tenant && job.sessionId == q.session && job.epoch == q.epoch && job.taskRevision == q.task) {
      return Err(Permission);
    }
    var m := q.fromServer;
    if m.source != job.clockId || m.error > q.maxError {
      return Err(Permission);
    }
    var deadline := m.Map(job.deadline, q.clock, q.now);
    if deadline.Err? {
      return Err(Error.Value);
    }
    var latest := deadline.value.time - deadline.value.error;
    if job.kind != Historical {
      var aged := LowerByAge(job, q, latest);
      if aged.Err? {
        return Err(aged.error);
      }
      latest := aged.value;
    }
    if job.workload == Policy {
      if q.usefulUntil.None? {
        return Err(Permission);
      }
      latest := Min(latest, q.usefulUntil.value);
    }
    if q.now >= latest {
      return Err(Permission);
    }
    r := Ok(DeliveryCheck(job.id, latest, q.now));
  }

  lemma {:induction false} LatestLocalIsLeast(obs: seq<Observation>, maxAge: int, m: ClockMap, bound: int, now: int)
    ensures now < LatestLocal(obs, maxAge, m, bound) <==>
            now < bound && forall o :: o in obs && o.role == Current ==>
                             now < o.capture + m.offset + maxAge - o.uncertainty - m.error
  {
    if obs != [] {
      LatestLocalIsLeast(obs[..|obs| - 1], maxAge, m, bound, now);
      assert obs == obs[..|obs| - 1] + [obs[|obs| - 1]];
    }
  }

  // ---- what acceptance means in true time ----

  /** The source behind an observation: its capture on the source's clock, the mapping used to the
      coordinator, and the true offset between those clocks. */
  datatype Origin = Origin(captured: int, mapping: ClockMap, trueOffset: int)

  ghost predicate Origins(job: Job, origins: seq<Origin>) {
    && |origins| == |job.observations|
    && forall i :: 0 <= i < |origins| ==>
         Stands(job.observations[i], origins[i].captured, origins[i].mapping)
             && origins[i].mapping.Covers(origins[i].trueOffset)
  }

  /** In true time at the moment of the check: the coordinator's deadline is ahead, each current frame
      is younger than the bound, and a policy's own deadline is ahead. */
  ghost predicate Timely(job: Job, q: Local, origins: seq<Origin>, toLocal: int)
    requires job.Valid() && |origins| == |job.observations|
  {
    && q.now - toLocal < job.deadline
    && (job.kind != Historical ==>
          forall i :: 0 <= i < |origins| && job.observations[i].role == Current ==>
            q.now - (origins[i].captured + origins[i].trueOffset + toLocal) < job.maxAge.value)
    && (job.workload == Policy && q.usefulUntil.Some? ==> q.now < q.usefulUntil.value)
  }

  /** If every true offset is within its declared error, passing the fence means being timely. */
  lemma PassingIsTimely(job: Job, q: Local, origins: seq<Origin>, toLocal: int)
    requires job.Valid() && q.now < Latest(job, q)
    requires Origins(job, origins) && q.fromServer.Covers(toLocal)
    ensures Timely(job, q, origins, toLocal)
  {
    var m := q.fromServer;
    var bound := job.deadline + m.offset - m.error;
    if job.kind != Historical {
      LatestLocalIsLeast(job.observations, job.maxAge.value, m, bound, q.now);
      forall i | 0 <= i < |origins| && job.observations[i].role == Current
        ensures q.now - (origins[i].captured + origins[i].trueOffset + toLocal) < job.maxAge.value
      {
        assert job.observations[i] in job.observations;
        assert Stands(job.observations[i], origins[i].captured, origins[i].mapping);
      }
    }
  }

  /** The same origins with the true offset as early as its mapping allows. */
  function Earliest(origins: seq<Origin>): seq<Origin> {
    seq(|origins|, i requires 0 <= i < |origins| =>
      origins[i].(trueOffset := origins[i].mapping.offset - origins[i].mapping.error))
  }

  lemma EarliestOrigins(job: Job, origins: seq<Origin>)
    requires Origins(job, origins) && forall i :: 0 <= i < |origins| ==> origins[i].mapping.Valid()
    ensures Origins(job, Earliest(origins)) && SameSources(origins, Earliest(origins))
  {
    var early := Earliest(origins);
    forall i | 0 <= i < |origins| ensures Stands(job.observations[i], early[i].captured, early[i].mapping) {
      assert Stands(job.observations[i], origins[i].captured, origins[i].mapping);
    }
  }

  /** A frame whose own bound has passed is as old as that under the earliest offsets. */
  lemma FrameMayBeOld(job: Job, q: Local, origins: seq<Origin>, i: nat)
    requires Origins(job, origins) && i < |origins| && job.maxAge.Some?
    requires var o, m := job.observations[i], q.fromServer;
             q.now >= o.capture + m.offset + job.maxAge.value - o.uncertainty - m.error
    ensures var e := Earliest(origins)[i];
            q.now - (e.captured + e.trueOffset + (q.fromServer.offset - q.fromServer.error)) >= job.maxAge.value
  {
    assert Stands(job.observations[i], origins[i].captured, origins[i].mapping);
  }

  /** The fence is no stricter than it must be: what it turns away as too old is untimely under some
      true offsets that the mappings allow. */
  lemma FailingMayBeLate(job: Job, q: Local, origins: seq<Origin>)
    requires job.Valid() && q.now >= Latest(job, q) && q.fromServer.Valid()
    requires Origins(job, origins) && forall i :: 0 <= i < |origins| ==> origins[i].mapping.Valid()
    ensures Origins(job, Earliest(origins)) && q.fromServer.Covers(q.fromServer.offset - q.fromServer.error)
    ensures !Timely(job, q, Earliest(origins), q.fromServer.offset - q.fromServer.error)
  {
    var m, early := q.fromServer, Earliest(origins);
    EarliestOrigins(job, origins);
    if job.kind != Historical {
      LatestLocalIsLeast(job.observations, job.maxAge.value, m, job.deadline + m.offset - m.error, q.now);
      hide LatestLocal, Earliest, Origins, Stands;
      if o :| o in job.observations && o.role == Current
              && q.now >= o.capture + m.offset + job.maxAge.value - o.uncertainty - m.error {
        var i :| 0 <= i < |job.observations| && job.observations[i] == o;
        assert |origins| == |job.observations| == |early| by { OriginsLength(job, origins); OriginsLength(job, early); }
        FrameMayBeOld(job, q, origins, i);
      }
    }
  }

  lemma OriginsLength(job: Job, origins: seq<Origin>)
    requires Origins(job, origins)
    ensures |origins| == |job.observations|
  {
  }

  /** So the time test is exactly timeliness under every choice of true offsets the mappings allow. */
  lemma FenceIsExact(job: Job, q: Local, origins: seq<Origin>)
    requires job.Valid() && q.fromServer.Valid() && Origins(job, origins)
    requires forall i :: 0 <= i < |origins| ==> origins[i].mapping.Valid()
    ensures q.now < Latest(job, q) <==>
            forall truth: seq<Origin>, toLocal: int ::
              Origins(job, truth) && SameSources(origins, truth) && q.fromServer.Covers(toLocal) ==>
                Timely(job, q, truth, toLocal)
  {
    if q.now < Latest(job, q) {
      forall truth: seq<Origin>, toLocal: int
        | Origins(job, truth) && SameSources(origins, truth) && q.fromServer.Covers(toLocal)
        ensures Timely(job, q, truth, toLocal)
      {
        PassingIsTimely(job, q, truth, toLocal);
      }
    } else {
      FailingMayBeLate(job, q, origins);
      assert SameSources(origins, Earliest(origins));
    }
  }

  /** Only the true offsets differ. */
  ghost predicate SameSources(a: seq<Origin>, b: seq<Origin>) {
    |a| == |b| && forall i :: 0 <= i < |a| ==> b[i].captured == a[i].captured && b[i].mapping == a[i].mapping
  }
}
