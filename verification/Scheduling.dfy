/** Request ranking and endpoint choice (scheduling.py). */
module Scheduling {
  import opened Order

  datatype Mode = Fifo | Edf | Slack
  datatype Placement = Fastest | CheapestFeasible

  datatype Candidate = Candidate(id: string, submitted: int, latest: int, estimate: int, priority: int)

  function RankOf(c: Candidate, now: int, mode: Mode): Rank {
    match mode
    case Fifo => Rank(c.submitted, 0, 0, c.id)
    case Edf => Rank(c.latest, c.submitted, 0, c.id)
    case Slack => Rank(c.latest - now - c.estimate, c.priority, c.submitted, c.id)
  }

  /** Submitted first; ids break ties. */
  predicate Older(x: Candidate, y: Candidate) {
    x.submitted < y.submitted || (x.submitted == y.submitted && StrLess(x.id, y.id))
  }

  /** The order in which two candidates are served, whatever the clock shows: by submission, by deadline,
      or by slack and then priority. */
  predicate Ahead(x: Candidate, y: Candidate, mode: Mode) {
    match mode
    case Fifo => Older(x, y)
    case Edf => x.latest < y.latest || (x.latest == y.latest && Older(x, y))
    case Slack =>
      var a, b := x.latest - x.estimate, y.latest - y.estimate;
      a < b || (a == b && (x.priority < y.priority || (x.priority == y.priority && Older(x, y))))
  }

  /** The rank tuples sort by that order: `now` cancels out of every comparison, so each policy is one
      fixed strict order on candidates with distinct ids. */
  lemma RankIsStatic(x: Candidate, y: Candidate, now: int, mode: Mode)
    ensures Less(RankOf(x, now, mode), RankOf(y, now, mode)) <==> Ahead(x, y, mode)
    ensures x.id != y.id ==> (Ahead(x, y, mode) <==> !Ahead(y, x, mode))
    ensures !Ahead(x, x, mode)
  {
    LessIsStrictTotal(RankOf(x, 0, mode), RankOf(y, 0, mode), RankOf(x, 0, mode));
  }

  datatype Endpoint = Endpoint(id: string, model: string, pool: string, site: string, mock: bool,
                               estimate: nat, maxInflight: nat, reserve: nat)

  function Used(use: map<string, nat>, k: string): nat {
    if k in use then use[k] else 0
  }

  /** The four conditions that let an endpoint take a call now. */
  predicate Feasible(ep: Endpoint, now: int, latest: int, sites: seq<string>, slots: map<string, nat>,
                     poolUse: map<string, nat>, endpointUse: map<string, nat>, quarantined: set<string>)
    requires ep.pool in slots
  {
    && ep.site in sites
    && ep.pool !in quarantined
    && Used(poolUse, ep.pool) < slots[ep.pool]
    && Used(endpointUse, ep.id) < ep.maxInflight
    && now + ep.estimate < latest
  }

  function PlacementKey(ep: Endpoint, placement: Placement): Rank {
    match placement
    case CheapestFeasible => Rank(ep.reserve, ep.estimate, 0, ep.id)
    case Fastest => Rank(ep.estimate, ep.reserve, 0, ep.id)
  }

  /** Which of two endpoints is preferred: by estimate then reserve, or by reserve then estimate; ids
      break ties. */
  predicate Preferred(x: Endpoint, y: Endpoint, placement: Placement) {
    match placement
    case Fastest =>
      x.estimate < y.estimate
      || (x.estimate == y.estimate && (x.reserve < y.reserve || (x.reserve == y.reserve && StrLess(x.id, y.id))))
    case CheapestFeasible =>
      x.reserve < y.reserve
      || (x.reserve == y.reserve && (x.estimate < y.estimate || (x.estimate == y.estimate && StrLess(x.id, y.id))))
  }

  datatype Choice = NoEndpoint | Chosen(endpoint: Endpoint)

  /** Among the feasible endpoints, one to which none is preferred. */
  ghost predicate IsChoice(r: Choice, endpoints: seq<Endpoint>, now: int, latest: int, sites: seq<string>,
                           slots: map<string, nat>, poolUse: map<string, nat>, endpointUse: map<string, nat>,
                           quarantined: set<string>, placement: Placement)
    requires forall e | e in endpoints :: e.pool in slots
  {
    match r
    case NoEndpoint =>
      forall e | e in endpoints :: !Feasible(e, now, latest, sites, slots, poolUse, endpointUse, quarantined)
    case Chosen(ep) =>
      && ep in endpoints
      && Feasible(ep, now, latest, sites, slots, poolUse, endpointUse, quarantined)
      && forall e | e in endpoints && Feasible(e, now, latest, sites, slots, poolUse, endpointUse, quarantined) ::
           !Preferred(e, ep, placement)
  }

  function Better(best: Choice, ep: Endpoint, placement: Placement): Choice {
    if best.Chosen? && !Less(PlacementKey(ep, placement), PlacementKey(best.endpoint, placement)) then best
    else Chosen(ep)
  }

  /** Left-to-right minimum over the feasible endpoints. */
  function Choose(endpoints: seq<Endpoint>, now: int, latest: int, sites: seq<string>, slots: map<string, nat>,
                  poolUse: map<string, nat>, endpointUse: map<string, nat>, quarantined: set<string>,
                  placement: Placement): Choice
    requires forall e | e in endpoints :: e.pool in slots
  {
    if endpoints == [] then NoEndpoint else
    var n := |endpoints| - 1;
    var best := Choose(endpoints[..n], now, latest, sites, slots, poolUse, endpointUse, quarantined, placement);
    if Feasible(endpoints[n], now, latest, sites, slots, poolUse, endpointUse, quarantined)
    then Better(best, endpoints[n], placement)
    else best
  }

  lemma {:induction false} ChooseIsChoice(endpoints: seq<Endpoint>, now: int, latest: int, sites: seq<string>,
                                          slots: map<string, nat>, poolUse: map<string, nat>,
                                          endpointUse: map<string, nat>, quarantined: set<string>, placement: Placement)
    requires forall e | e in endpoints :: e.pool in slots
    ensures IsChoice(Choose(endpoints, now, latest, sites, slots, poolUse, endpointUse, quarantined, placement),
                     endpoints, now, latest, sites, slots, poolUse, endpointUse, quarantined, placement)
  {
    if endpoints != [] {
      var n := |endpoints| - 1;
      var front, ep := endpoints[..n], endpoints[n];
      assert endpoints == front + [ep];
      ChooseIsChoice(front, now, latest, sites, slots, poolUse, endpointUse, quarantined, placement);
      var best := Choose(front, now, latest, sites, slots, poolUse, endpointUse, quarantined, placement);
      var r := Choose(endpoints, now, latest, sites, slots, poolUse, endpointUse, quarantined, placement);
      if r.Chosen? {
        var k := PlacementKey(r.endpoint, placement);
        LessIsStrictTotal(k, k, k);
        forall e | e in endpoints && Feasible(e, now, latest, sites, slots, poolUse, endpointUse, quarantined)
          ensures !Preferred(e, r.endpoint, placement)
        {
          if e in front && best.Chosen? {
            LessIsStrictTotal(PlacementKey(e, placement), k, PlacementKey(best.endpoint, placement));
          }
        }
      }
    }
  }

  /** `choose_endpoint`: collect the feasible endpoints, then take the minimum. */
  method ChooseEndpoint(endpoints: seq<Endpoint>, now: int, latest: int, sites: seq<string>, slots: map<string, nat>,
                        poolUse: map<string, nat>, endpointUse: map<string, nat>, quarantined: set<string>,
                        placement: Placement) returns (r: Choice)
    requires forall e | e in endpoints :: e.pool in slots
    ensures IsChoice(r, endpoints, now, latest, sites, slots, poolUse, endpointUse, quarantined, placement)
    ensures r == Choose(endpoints, now, latest, sites, slots, poolUse, endpointUse, quarantined, placement)
  {
    var feasible: seq<Endpoint> := [];
    ghost var best := NoEndpoint;
    for i := 0 to |endpoints|
      invariant best == Choose(endpoints[..i], now, latest, sites, slots, poolUse, endpointUse, quarantined, placement)
      invariant best == Least(feasible, placement)
    {
      var ep := endpoints[i];
      assert endpoints[..i + 1][..i] == endpoints[..i];
      if ep.site !in sites || ep.pool in quarantined {
        continue;
      }
      if Used(poolUse, ep.pool) >= slots[ep.pool] || Used(endpointUse, ep.id) >= ep.maxInflight {
        continue;
      }
      if now + ep.estimate >= latest {
        continue;
      }
      assert (feasible + [ep])[..|feasible|] == feasible;
      feasible := feasible + [ep];
      best := Better(best, ep, placement);
    }
    assert endpoints[..|endpoints|] == endpoints;
    r := NoEndpoint;
    for i := 0 to |feasible|
      invariant r == Least(feasible[..i], placement)
    {
      assert feasible[..i + 1][..i] == feasible[..i];
      r := Better(r, feasible[i], placement);
    }
    assert feasible[..|feasible|] == feasible;
    ChooseIsChoice(endpoints, now, latest, sites, slots, poolUse, endpointUse, quarantined, placement);
  }

  /** `min(feasible, key=key)`. */
  function Least(eps: seq<Endpoint>, placement: Placement): Choice {
    if eps == [] then NoEndpoint else Better(Least(eps[..|eps| - 1], placement), eps[|eps| - 1], placement)
  }
}
