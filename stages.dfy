/** What each stage of the selection pipeline computes, as functions of its inputs, and the
    properties of those functions. The stage methods of `Agent.AgentState` are proved against
    these. */
module Stages {
  import opened VendorTypes
  import opened Seqs
  import opened Scoring
  import opened Ranking

  /** The fixed service radius of the location stage, in kilometres. */
  const SERVICE_RADIUS_KM: real := 25.0

  /** How many of the best available vendors the selection oracle is shown. */
  const SHORTLIST_SIZE: nat := 10

  /** Appended to the proposal's reasoning when the validator falls back. */
  const FALLBACK_SUFFIX: string := " (Fallback to top-scored vendor)"

  /** The great-circle distance in kilometres between (lat1, lon1) and (lat2, lon2). The
      haversine formula itself is not part of this model: any distance function can be used. */
  type DistanceKm = (real, real, real, real) -> real

  /** The external selection oracle: it sees the shortlisted candidates and the request and
      either proposes a selection or fails. */
  type SelectionOracle = (seq<Candidate>, ServiceRequest) -> OracleReply

  // ---------------------------------------------------------------- eligibility

  /** A vendor can serve the request at all: it offers the service, is not blocked and has room
      for another order. */
  predicate IsEligible(v: Vendor, service: ServiceType)
  {
    service in v.services && v.status != Blocked && v.currentOrders < v.maxConcurrentOrders
  }

  function EligibleVendors(vendors: seq<Vendor>, service: ServiceType): seq<Vendor>
  {
    Filter(vendors, (v: Vendor) => IsEligible(v, service))
  }

  /** The eligibility stage keeps exactly the eligible vendors, in their input order. */
  lemma EligibleVendorsExact(vendors: seq<Vendor>, service: ServiceType)
    ensures forall v :: v in EligibleVendors(vendors, service) <==>
      v in vendors && service in v.services && v.status != Blocked
      && v.currentOrders < v.maxConcurrentOrders
    ensures IsSubsequence(EligibleVendors(vendors, service), vendors)
  {
    FilterSpec(vendors, (v: Vendor) => IsEligible(v, service));
  }

  // ---------------------------------------------------------------- location

  function DistanceTo(v: Vendor, customer: Location, distance: DistanceKm): real
  {
    distance(customer.latitude, customer.longitude, v.location.latitude, v.location.longitude)
  }

  predicate InServiceArea(v: Vendor, customer: Location, distance: DistanceKm)
  {
    DistanceTo(v, customer, distance) <= SERVICE_RADIUS_KM
  }

  function VendorsInArea(vendors: seq<Vendor>, customer: Location, distance: DistanceKm): seq<Vendor>
  {
    Filter(vendors, (v: Vendor) => InServiceArea(v, customer, distance))
  }

  /** The location stage keeps exactly the vendors within 25 km, in their input order. */
  lemma VendorsInAreaExact(vendors: seq<Vendor>, customer: Location, distance: DistanceKm)
    ensures forall v :: v in VendorsInArea(vendors, customer, distance) <==>
      v in vendors && DistanceTo(v, customer, distance) <= 25.0
    ensures IsSubsequence(VendorsInArea(vendors, customer, distance), vendors)
  {
    FilterSpec(vendors, (v: Vendor) => InServiceArea(v, customer, distance));
  }

  // ---------------------------------------------------------------- scoring

  /** Whether every vendor can be scored without a division by zero. */
  predicate AllScorable(vendors: seq<Vendor>)
  {
    forall v :: v in vendors ==> v.maxConcurrentOrders > 0
  }

  function Score(v: Vendor, request: ServiceRequest): ScoredVendor
    requires v.maxConcurrentOrders > 0
  {
    ScoredVendor(v, PerformanceScore(v, request))
  }

  /** Each vendor paired with its score, in input order. */
  function ScoreAll(vendors: seq<Vendor>, request: ServiceRequest): seq<ScoredVendor>
    requires AllScorable(vendors)
  {
    seq(|vendors|, i requires 0 <= i < |vendors| => Score(vendors[i], request))
  }

  /** What the scoring stage stores: the scored vendors, best first, stably sorted. */
  function Ranked(vendors: seq<Vendor>, request: ServiceRequest): seq<ScoredVendor>
    requires AllScorable(vendors)
  {
    SortByScore(ScoreAll(vendors, request))
  }

  /** The scoring stage's output is a permutation of the vendors paired with their scores,
      non-increasing by score, stable among equal scores, and every score is at most 100. */
  lemma RankedCorrect(vendors: seq<Vendor>, request: ServiceRequest)
    requires AllScorable(vendors)
    ensures multiset(Ranked(vendors, request)) == multiset(ScoreAll(vendors, request))
    ensures SortedByScore(Ranked(vendors, request))
    ensures forall v :: WithScore(Ranked(vendors, request), v) == WithScore(ScoreAll(vendors, request), v)
    ensures forall e :: e in Ranked(vendors, request) ==>
      e.vendor in vendors && e.score == PerformanceScore(e.vendor, request) && e.score <= 100.0
  {
    var scored := ScoreAll(vendors, request);
    SortByScoreCorrect(scored);
    forall e | e in Ranked(vendors, request)
      ensures e.vendor in vendors && e.score == PerformanceScore(e.vendor, request)
    {
      assert e in multiset(scored);
      var i :| 0 <= i < |scored| && scored[i] == e;
    }
  }

  /** Every vendor that passed the eligibility stage can be scored. */
  lemma EligibleAreScorable(vendors: seq<Vendor>, service: ServiceType)
    ensures AllScorable(EligibleVendors(vendors, service))
  {
    forall v | v in EligibleVendors(vendors, service) ensures v.maxConcurrentOrders > 0 {
      FilterMembership(vendors, (v: Vendor) => IsEligible(v, service), v);
    }
  }

  /** Vendors dropped by the location stage stay scorable. */
  lemma InAreaStaysScorable(vendors: seq<Vendor>, customer: Location, distance: DistanceKm)
    requires AllScorable(vendors)
    ensures AllScorable(VendorsInArea(vendors, customer, distance))
  {
    forall v | v in VendorsInArea(vendors, customer, distance) ensures v.maxConcurrentOrders > 0 {
      FilterMembership(vendors, (v: Vendor) => InServiceArea(v, customer, distance), v);
    }
  }

  /** The vendors that reach the scoring stage: eligible and within the service radius. */
  function VendorsToScore(request: ServiceRequest, vendors: seq<Vendor>, distance: DistanceKm): (r: seq<Vendor>)
    ensures AllScorable(r)
  {
    var eligible := EligibleVendors(vendors, request.serviceType);
    EligibleAreScorable(vendors, request.serviceType);
    InAreaStaysScorable(eligible, request.customerLocation, distance);
    VendorsInArea(eligible, request.customerLocation, distance)
  }

  // ---------------------------------------------------------------- availability

  function AvailableVendors(scored: seq<ScoredVendor>, request: ServiceRequest, now: int): seq<ScoredVendor>
  {
    Filter(scored, (e: ScoredVendor) => IsAvailable(e.vendor, request, now))
  }

  /** The availability stage keeps exactly the available (vendor, score) pairs, unchanged and in
      their input order; a sorted input stays sorted. */
  lemma AvailableVendorsExact(scored: seq<ScoredVendor>, request: ServiceRequest, now: int)
    ensures forall e :: e in AvailableVendors(scored, request, now) <==>
      e in scored && e.vendor.status == Active
      && e.vendor.currentOrders < e.vendor.maxConcurrentOrders
      && (request.priority == Urgent ==> e.vendor.isOnline)
      && now - e.vendor.lastSeen <= SECONDS_PER_DAY
    ensures IsSubsequence(AvailableVendors(scored, request, now), scored)
    ensures SortedByScore(scored) ==> SortedByScore(AvailableVendors(scored, request, now))
  {
    var p := (e: ScoredVendor) => IsAvailable(e.vendor, request, now);
    FilterSpec(scored, p);
    if SortedByScore(scored) {
      FilterKeepsSorted(scored, p);
    }
  }

  /** The vendors, with their scores, that leave the availability stage of a whole run. */
  function GatedVendors(request: ServiceRequest, vendors: seq<Vendor>, distance: DistanceKm, now: int): seq<ScoredVendor>
  {
    AvailableVendors(Ranked(VendorsToScore(request, vendors, distance), request), request, now)
  }

  // ---------------------------------------------------------------- oracle adapter

  /** The first ten available vendors, or all of them if there are fewer. */
  function Shortlist(gated: seq<ScoredVendor>): (r: seq<ScoredVendor>)
    ensures |r| <= SHORTLIST_SIZE && |r| <= |gated| && r == gated[..|r|]
    ensures |gated| <= SHORTLIST_SIZE ==> r == gated
    ensures |gated| > SHORTLIST_SIZE ==> |r| == SHORTLIST_SIZE
  {
    if |gated| <= SHORTLIST_SIZE then gated else gated[..SHORTLIST_SIZE]
  }

  /** The summary the oracle is shown for one vendor. The attached distance does not survive the
      location stage, so the summary always reports 0 km. */
  function CandidateOf(e: ScoredVendor): Candidate
  {
    Candidate(e.vendor.vendorId, e.vendor.name, e.score, e.vendor.averageRating,
              e.vendor.completionRate, e.vendor.responseTimeMinutes, e.vendor.currentOrders,
              e.vendor.isOnline, 0.0)
  }

  function Candidates(shortlist: seq<ScoredVendor>): seq<Candidate>
  {
    seq(|shortlist|, i requires 0 <= i < |shortlist| => CandidateOf(shortlist[i]))
  }

  // ---------------------------------------------------------------- validation

  /** The ids of the available vendors that the proposal selected, in the order of the
      available list. */
  function ConfirmedIds(gated: seq<ScoredVendor>, proposed: seq<string>): seq<string>
  {
    if gated == [] then []
    else
      var id := gated[|gated| - 1].vendor.vendorId;
      ConfirmedIds(gated[..|gated| - 1], proposed) + (if id in proposed then [id] else [])
  }

  /** No id is confirmed exactly when no available vendor was proposed. */
  lemma {:induction false} ConfirmedIdsEmpty(gated: seq<ScoredVendor>, proposed: seq<string>)
    ensures ConfirmedIds(gated, proposed) == [] <==>
      forall e :: e in gated ==> e.vendor.vendorId !in proposed
  {
    if gated != [] {
      var g' := gated[..|gated| - 1];
      ConfirmedIdsEmpty(g', proposed);
      assert gated == g' + [gated[|gated| - 1]];
    }
  }

  /** The proposal after validation: unchanged if any of its selected ids is available or if
      nothing is available; otherwise the top-ranked available vendor replaces its selection and
      primary vendor and the reasoning records the fallback. Nothing else changes. */
  function Validated(proposal: SelectionResult, gated: seq<ScoredVendor>): SelectionResult
  {
    if ConfirmedIds(gated, proposal.selectedVendors) == [] && gated != [] then
      var top := gated[0].vendor.vendorId;
      proposal.(selectedVendors := [top], primaryVendor := top,
                reasoning := proposal.reasoning + FALLBACK_SUFFIX)
    else proposal
  }

  /** The number the validation log line reports. */
  function ConfirmedCount(proposal: SelectionResult, gated: seq<ScoredVendor>): nat
  {
    if ConfirmedIds(gated, proposal.selectedVendors) == [] && gated != [] then 1
    else |ConfirmedIds(gated, proposal.selectedVendors)|
  }

  /** If no proposed id is available, the top-ranked available vendor becomes the only selected
      vendor and the primary vendor, and the reasoning gains the fallback marker. */
  lemma ValidatedFallback(proposal: SelectionResult, gated: seq<ScoredVendor>)
    requires gated != []
    requires forall e :: e in gated ==> e.vendor.vendorId !in proposal.selectedVendors
    ensures Validated(proposal, gated).selectedVendors == [gated[0].vendor.vendorId]
    ensures Validated(proposal, gated).primaryVendor == gated[0].vendor.vendorId
    ensures Validated(proposal, gated).reasoning == proposal.reasoning + FALLBACK_SUFFIX
    ensures Validated(proposal, gated).fallbackVendors == proposal.fallbackVendors
    ensures Validated(proposal, gated).confidenceScore == proposal.confidenceScore
    ensures Validated(proposal, gated).estimatedResponseTime == proposal.estimatedResponseTime
    ensures Validated(proposal, gated).metadata == proposal.metadata
    ensures ConfirmedCount(proposal, gated) == 1
  {
    ConfirmedIdsEmpty(gated, proposal.selectedVendors);
  }

  /** If some proposed id is available, the proposal is kept exactly as it is, including any
      selected ids that are not available. */
  lemma ValidatedKeeps(proposal: SelectionResult, gated: seq<ScoredVendor>, e: ScoredVendor)
    requires e in gated && e.vendor.vendorId in proposal.selectedVendors
    ensures Validated(proposal, gated) == proposal
    ensures ConfirmedCount(proposal, gated) >= 1
  {
    ConfirmedIdsEmpty(gated, proposal.selectedVendors);
  }

  /** With something available, the validated selection names at least one available vendor. */
  lemma ValidatedSelectsAvailable(proposal: SelectionResult, gated: seq<ScoredVendor>)
    requires gated != []
    ensures exists e :: e in gated && e.vendor.vendorId in Validated(proposal, gated).selectedVendors
  {
    ConfirmedIdsEmpty(gated, proposal.selectedVendors);
    if ConfirmedIds(gated, proposal.selectedVendors) == [] {
      assert gated[0] in gated;
    }
  }

  /** Validating twice gives the same result as validating once. */
  lemma ValidatedIdempotent(proposal: SelectionResult, gated: seq<ScoredVendor>)
    ensures Validated(Validated(proposal, gated), gated) == Validated(proposal, gated)
  {
    var once := Validated(proposal, gated);
    ConfirmedIdsEmpty(gated, proposal.selectedVendors);
    ConfirmedIdsEmpty(gated, once.selectedVendors);
    if gated != [] {
      assert gated[0] in gated;
    }
  }
}
