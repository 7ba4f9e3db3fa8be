/** The selection agent: one mutable state threaded through six stages, and `SelectVendors`,
    which runs them in order and turns the final state into a result. No stage looks at
    `errorMessage`; only the final assembly does. */
module Agent {
  import opened VendorTypes
  import opened Seqs
  import opened Scoring
  import opened Ranking
  import opened Stages

  /** The message Python gives a `ZeroDivisionError`. */
  const DIVISION_BY_ZERO: string := "division by zero"

  const NO_AVAILABLE_VENDORS: string := "No available vendors found"
  const NO_SELECTION_RESULT: string := "No selection result available"

  class AgentState {
    const serviceRequest: ServiceRequest
    const availableVendors: seq<Vendor>
    var filteredVendors: seq<Vendor>
    var scoredVendors: seq<ScoredVendor>
    var selectionResult: Option<SelectionResult>
    var reasoningSteps: seq<Step>
    var errorMessage: Option<string>

    constructor (request: ServiceRequest, vendors: seq<Vendor>)
      ensures serviceRequest == request && availableVendors == vendors
      ensures filteredVendors == [] && scoredVendors == [] && selectionResult == None
      ensures reasoningSteps == [] && errorMessage == None
    {
      serviceRequest := request;
      availableVendors := vendors;
      filteredVendors := [];
      scoredVendors := [];
      selectionResult := None;
      reasoningSteps := [];
      errorMessage := None;
    }

    /** Eligibility stage: keep the vendors that offer the requested service, are not blocked and
        are below their order limit, in input order. */
    method FilterVendors()
      modifies this`filteredVendors, this`reasoningSteps
      ensures filteredVendors == EligibleVendors(availableVendors, serviceRequest.serviceType)
      ensures reasoningSteps == old(reasoningSteps)
        + [EligibilityStep(|filteredVendors|, |availableVendors|, serviceRequest.serviceType)]
    {
      var request := serviceRequest;
      ghost var eligible := (v: Vendor) => IsEligible(v, request.serviceType);
      var filtered: seq<Vendor> := [];
      for i := 0 to |availableVendors|
        invariant unchanged(this)
        invariant filtered == Filter(availableVendors[..i], eligible)
      {
        var vendor := availableVendors[i];
        assert availableVendors[..i + 1] == availableVendors[..i] + [vendor];
        FilterSnoc(availableVendors[..i], vendor, eligible);
        if request.serviceType !in vendor.services {
          continue;
        }
        if vendor.status == Blocked {
          continue;
        }
        if vendor.currentOrders >= vendor.maxConcurrentOrders {
          continue;
        }
        filtered := filtered + [vendor];
      }
      assert availableVendors[..|availableVendors|] == availableVendors;
      filteredVendors := filtered;
      reasoningSteps := reasoningSteps
        + [EligibilityStep(|filtered|, |availableVendors|, request.serviceType)];
    }

    /** Location stage: keep the filtered vendors within the service radius of the customer. */
    method AnalyzeLocation(distance: DistanceKm)
      modifies this`filteredVendors, this`reasoningSteps
      ensures filteredVendors == VendorsInArea(old(filteredVendors), serviceRequest.customerLocation, distance)
      ensures reasoningSteps == old(reasoningSteps) + [LocationStep(|filteredVendors|)]
    {
      var customer := serviceRequest.customerLocation;
      ghost var inArea := (v: Vendor) => InServiceArea(v, customer, distance);
      var withinRadius: seq<Vendor> := [];
      for i := 0 to |filteredVendors|
        invariant unchanged(this)
        invariant withinRadius == Filter(filteredVendors[..i], inArea)
      {
        var vendor := filteredVendors[i];
        assert filteredVendors[..i + 1] == filteredVendors[..i] + [vendor];
        FilterSnoc(filteredVendors[..i], vendor, inArea);
        var km := distance(customer.latitude, customer.longitude,
                           vendor.location.latitude, vendor.location.longitude);
        if km <= SERVICE_RADIUS_KM {
          withinRadius := withinRadius + [vendor];
        }
      }
      assert filteredVendors[..|filteredVendors|] == filteredVendors;
      filteredVendors := withinRadius;
      reasoningSteps := reasoningSteps + [LocationStep(|withinRadius|)];
    }

    /** Scoring stage: score every filtered vendor and store them best first. A vendor whose order
        limit is 0 makes the score divide by zero; the stage then records the error and changes
        nothing else. */
    method ScorePerformance()
      modifies this`scoredVendors, this`reasoningSteps, this`errorMessage
      ensures AllScorable(filteredVendors) ==>
        scoredVendors == Ranked(filteredVendors, serviceRequest)
        && reasoningSteps == old(reasoningSteps) + [ScoringStep(|scoredVendors|)]
        && errorMessage == old(errorMessage)
      ensures !AllScorable(filteredVendors) ==>
        scoredVendors == old(scoredVendors) && reasoningSteps == old(reasoningSteps)
        && errorMessage == Some("Error in performance scoring: " + DIVISION_BY_ZERO)
    {
      var scored: seq<ScoredVendor> := [];
      for i := 0 to |filteredVendors|
        invariant unchanged(this)
        invariant AllScorable(filteredVendors[..i])
        invariant scored == ScoreAll(filteredVendors[..i], serviceRequest)
      {
        var vendor := filteredVendors[i];
        if vendor.maxConcurrentOrders == 0 {
          assert vendor in filteredVendors;
          errorMessage := Some("Error in performance scoring: " + DIVISION_BY_ZERO);
          return;
        }
        assert filteredVendors[..i + 1] == filteredVendors[..i] + [vendor];
        var score := PerformanceScore(vendor, serviceRequest);
        scored := scored + [ScoredVendor(vendor, score)];
      }
      assert filteredVendors[..|filteredVendors|] == filteredVendors;
      scored := SortDescending(scored);
      scoredVendors := scored;
      reasoningSteps := reasoningSteps + [ScoringStep(|scored|)];
    }

    /** Availability stage: keep the scored vendors that are available now, with their scores and
        in their order. */
    method CheckAvailability(now: int)
      modifies this`scoredVendors, this`reasoningSteps
      ensures scoredVendors == AvailableVendors(old(scoredVendors), serviceRequest, now)
      ensures reasoningSteps == old(reasoningSteps) + [AvailabilityStep(|scoredVendors|)]
    {
      var request := serviceRequest;
      ghost var available := (e: ScoredVendor) => IsAvailable(e.vendor, request, now);
      var kept: seq<ScoredVendor> := [];
      for i := 0 to |scoredVendors|
        invariant unchanged(this)
        invariant kept == Filter(scoredVendors[..i], available)
      {
        var entry := scoredVendors[i];
        assert scoredVendors[..i + 1] == scoredVendors[..i] + [entry];
        FilterSnoc(scoredVendors[..i], entry, available);
        if IsAvailable(entry.vendor, request, now) {
          kept := kept + [entry];
        }
      }
      assert scoredVendors[..|scoredVendors|] == scoredVendors;
      scoredVendors := kept;
      reasoningSteps := reasoningSteps + [AvailabilityStep(|kept|)];
    }

    /** Oracle stage: with nothing available, record the error; otherwise show the oracle the
        summaries of at most the first ten available vendors and store its proposal, or record its
        failure. */
    method ApplyAiSelection(oracle: SelectionOracle)
      modifies this`selectionResult, this`reasoningSteps, this`errorMessage
      ensures scoredVendors == [] ==>
        errorMessage == Some(NO_AVAILABLE_VENDORS)
        && selectionResult == old(selectionResult) && reasoningSteps == old(reasoningSteps)
      ensures scoredVendors != [] ==>
        match oracle(Candidates(Shortlist(scoredVendors)), serviceRequest)
        case Proposed(proposal) =>
          selectionResult == Some(proposal)
          && reasoningSteps == old(reasoningSteps) + [AiSelectionStep]
          && errorMessage == old(errorMessage)
        case Failed(message) =>
          errorMessage == Some("Error in AI selection: " + message)
          && selectionResult == old(selectionResult) && reasoningSteps == old(reasoningSteps)
    {
      if scoredVendors == [] {
        errorMessage := Some(NO_AVAILABLE_VENDORS);
        return;
      }
      var n := if |scoredVendors| < SHORTLIST_SIZE then |scoredVendors| else SHORTLIST_SIZE;
      var candidates: seq<Candidate> := [];
      for i := 0 to n
        invariant unchanged(this)
        invariant |candidates| == i
        invariant forall k :: 0 <= k < i ==> candidates[k] == CandidateOf(scoredVendors[k])
      {
        candidates := candidates + [CandidateOf(scoredVendors[i])];
      }
      assert candidates == Candidates(Shortlist(scoredVendors));
      match oracle(candidates, serviceRequest)
      case Proposed(proposal) =>
        selectionResult := Some(proposal);
        reasoningSteps := reasoningSteps + [AiSelectionStep];
      case Failed(message) =>
        errorMessage := Some("Error in AI selection: " + message);
    }

    /** Validation stage: without a proposal, record the error. Otherwise collect the available
        vendors the proposal selected; if there are none and something is available, fall back to
        the top-ranked available vendor. A proposal that names any available vendor is left as it
        is. */
    method ValidateSelection()
      modifies this`selectionResult, this`reasoningSteps, this`errorMessage
      ensures old(selectionResult) == None ==>
        errorMessage == Some(NO_SELECTION_RESULT)
        && selectionResult == None && reasoningSteps == old(reasoningSteps)
      ensures old(selectionResult) != None ==>
        selectionResult == Some(Validated(old(selectionResult).value, scoredVendors))
        && reasoningSteps == old(reasoningSteps)
          + [ValidationStep(ConfirmedCount(old(selectionResult).value, scoredVendors))]
        && errorMessage == old(errorMessage)
    {
      if selectionResult == None {
        errorMessage := Some(NO_SELECTION_RESULT);
        return;
      }
      var proposal := selectionResult.value;
      var selectedIds := proposal.selectedVendors;
      var valid: seq<string> := [];
      for i := 0 to |scoredVendors|
        invariant unchanged(this)
        invariant valid == ConfirmedIds(scoredVendors[..i], selectedIds)
      {
        var id := scoredVendors[i].vendor.vendorId;
        assert scoredVendors[..i + 1][..i] == scoredVendors[..i];
        if id in selectedIds {
          valid := valid + [id];
        }
      }
      assert scoredVendors[..|scoredVendors|] == scoredVendors;
      if valid == [] {
        if scoredVendors != [] {
          var top := scoredVendors[0].vendor;
          valid := [top.vendorId];
          selectionResult := Some(proposal.(selectedVendors := valid, primaryVendor := top.vendorId,
                                            reasoning := proposal.reasoning + FALLBACK_SUFFIX));
        }
      }
      reasoningSteps := reasoningSteps + [ValidationStep(|valid|)];
    }

    /** The result handed back for the final state: the failure shape when an error was recorded
        or no proposal exists, otherwise the proposal with the audit trail attached. The trail
        counts the vendors after the location stage and after the availability stage. */
    function Outcome(): (r: SelectionResult)
      reads this
      ensures errorMessage != None ==>
        IsFailureShape(r) && r.reasoning == "Selection failed: " + errorMessage.value
      ensures errorMessage == None && selectionResult == None ==>
        IsFailureShape(r) && r.reasoning == "No suitable vendors found"
      ensures errorMessage == None && selectionResult != None ==>
        r == selectionResult.value.(metadata :=
          Some(Audit(reasoningSteps, |availableVendors|, |filteredVendors|, |scoredVendors|)))
    {
      if errorMessage != None then FailureResult("Selection failed: " + errorMessage.value)
      else if selectionResult == None then FailureResult("No suitable vendors found")
      else selectionResult.value.(metadata :=
        Some(Audit(reasoningSteps, |availableVendors|, |filteredVendors|, |scoredVendors|)))
    }
  }

  /** The reasoning log of a run in which the first four stages ran without error. */
  function EarlySteps(request: ServiceRequest, vendors: seq<Vendor>, distance: DistanceKm, now: int): seq<Step>
  {
    var inArea := VendorsToScore(request, vendors, distance);
    [EligibilityStep(|EligibleVendors(vendors, request.serviceType)|, |vendors|, request.serviceType),
     LocationStep(|inArea|), ScoringStep(|inArea|),
     AvailabilityStep(|GatedVendors(request, vendors, distance, now)|)]
  }

  /** Whether a run ends with a proposal: something is available and the oracle proposed. */
  predicate Proposes(request: ServiceRequest, vendors: seq<Vendor>, distance: DistanceKm,
                     oracle: SelectionOracle, now: int)
  {
    var gated := GatedVendors(request, vendors, distance, now);
    gated != [] && oracle(Candidates(Shortlist(gated)), request).Proposed?
  }

  /** Runs the six stages in order on a freshly initialised state. Every stage runs whatever
      happened before it; the validator's error replaces any earlier one. */
  method RunWorkflow(state: AgentState, distance: DistanceKm, oracle: SelectionOracle, now: int)
    requires state.filteredVendors == [] && state.scoredVendors == [] && state.selectionResult == None
    requires state.reasoningSteps == [] && state.errorMessage == None
    modifies state
    ensures
      var request, vendors := state.serviceRequest, state.availableVendors;
      var gated := GatedVendors(request, vendors, distance, now);
      var reply := oracle(Candidates(Shortlist(gated)), request);
      state.filteredVendors == VendorsToScore(request, vendors, distance)
      && state.scoredVendors == gated
      && (if Proposes(request, vendors, distance, oracle, now) then
            state.errorMessage == None
            && state.selectionResult == Some(Validated(reply.proposal, gated))
            && state.reasoningSteps == EarlySteps(request, vendors, distance, now)
                 + [AiSelectionStep, ValidationStep(ConfirmedCount(reply.proposal, gated))]
          else
            state.errorMessage == Some(NO_SELECTION_RESULT) && state.selectionResult == None)
  {
    var request, vendors := state.serviceRequest, state.availableVendors;
    ghost var inArea := VendorsToScore(request, vendors, distance);
    ghost var gated := GatedVendors(request, vendors, distance, now);
    state.FilterVendors();
    state.AnalyzeLocation(distance);
    assert state.filteredVendors == inArea;
    state.ScorePerformance();
    state.CheckAvailability(now);
    assert state.scoredVendors == gated;
    assert state.reasoningSteps == EarlySteps(request, vendors, distance, now);
    state.ApplyAiSelection(oracle);
    state.ValidateSelection();
  }

  /** Runs the pipeline on a fresh state and returns the final result. With nothing available,
      or when the oracle fails, the result is the failure shape, and the reported cause is always
      the validator's: the earlier messages are overwritten. Otherwise the result is the
      validated proposal with its audit trail, and it selects at least one available vendor. */
  method SelectVendors(request: ServiceRequest, vendors: seq<Vendor>, distance: DistanceKm,
                       oracle: SelectionOracle, now: int) returns (result: SelectionResult)
    ensures
      var gated := GatedVendors(request, vendors, distance, now);
      var reply := oracle(Candidates(Shortlist(gated)), request);
      if Proposes(request, vendors, distance, oracle, now) then
        var inArea := VendorsToScore(request, vendors, distance);
        var steps := EarlySteps(request, vendors, distance, now)
          + [AiSelectionStep, ValidationStep(ConfirmedCount(reply.proposal, gated))];
        result == Validated(reply.proposal, gated).(metadata := Some(Audit(steps, |vendors|, |inArea|, |gated|)))
        && exists e :: e in gated && e.vendor.vendorId in result.selectedVendors
      else
        IsFailureShape(result) && result.reasoning == "Selection failed: " + NO_SELECTION_RESULT
  {
    var state := new AgentState(request, vendors);
    RunWorkflow(state, distance, oracle, now);
    result := state.Outcome();
    if Proposes(request, vendors, distance, oracle, now) {
      var gated := GatedVendors(request, vendors, distance, now);
      ValidatedSelectsAvailable(oracle(Candidates(Shortlist(gated)), request).proposal, gated);
    }
  }
}
