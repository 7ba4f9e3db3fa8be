/** The values the vendor-selection pipeline works on: the enumerations, a vendor record,
    a service request, a scored vendor, the selection result and the audit trail. */
module VendorTypes {

  datatype Option<+T> = None | Some(value: T)

  datatype ServiceType = AcRepair | Plumbing | Electrical | Cleaning | Painting | Carpentry | Landscaping

  datatype Priority = Low | Medium | High | Urgent

  datatype VendorStatus = Active | Busy | Offline | Blocked

  /** Decimal-degree coordinates and an optional free-text address. */
  datatype Location = Location(latitude: real, longitude: real, address: string)

  /** A vendor as the pipeline receives it. Timestamps are integer seconds on one clock. */
  datatype Vendor = Vendor(
    vendorId: string,
    name: string,
    services: seq<ServiceType>,
    location: Location,
    status: VendorStatus,
    totalOrders: nat,
    completedOrders: nat,
    cancelledOrders: nat,
    averageRating: real,
    completionRate: real,
    responseTimeMinutes: real,
    currentOrders: nat,
    isOnline: bool,
    lastSeen: int,
    maxConcurrentOrders: nat)

  datatype ServiceRequest = ServiceRequest(
    requestId: string,
    userId: string,
    customerName: string,
    customerLocation: Location,
    serviceType: ServiceType,
    description: string,
    priority: Priority,
    estimatedValue: real,
    preferredTime: Option<int>,
    specialRequirements: seq<string>)

  /** A vendor paired with its performance score. */
  datatype ScoredVendor = ScoredVendor(vendor: Vendor, score: real)

  /** One entry of the reasoning log; each carries the numbers its log line reports. */
  datatype Step =
    | EligibilityStep(kept: nat, considered: nat, service: ServiceType)
    | LocationStep(withinRadius: nat)
    | ScoringStep(scored: nat)
    | AvailabilityStep(available: nat)
    | AiSelectionStep
    | ValidationStep(confirmed: nat)

  /** The audit metadata attached to a successful result. */
  datatype Audit = Audit(
    reasoningSteps: seq<Step>,
    totalVendorsConsidered: nat,
    filteredVendors: nat,
    scoredVendors: nat)

  /** The selection result. `metadata` is None when it holds no audit trail of the pipeline's own
      (the failure results, and whatever a proposal brought with it). */
  datatype SelectionResult = SelectionResult(
    selectedVendors: seq<string>,
    primaryVendor: string,
    fallbackVendors: seq<string>,
    reasoning: string,
    confidenceScore: real,
    estimatedResponseTime: int,
    metadata: Option<Audit>)

  /** The summary of one candidate that the selection oracle is shown. */
  datatype Candidate = Candidate(
    vendorId: string,
    name: string,
    performanceScore: real,
    rating: real,
    completionRate: real,
    responseTime: real,
    currentOrders: nat,
    isOnline: bool,
    distanceKm: real)

  /** What the external selection oracle returns: a proposal, or a failure with its message. */
  datatype OracleReply = Proposed(proposal: SelectionResult) | Failed(message: string)

  /** The uniform failure shape of the pipeline's result. */
  predicate IsFailureShape(r: SelectionResult)
  {
    r.selectedVendors == [] && r.primaryVendor == "" && r.fallbackVendors == []
    && r.confidenceScore == 0.0 && r.estimatedResponseTime == 0
  }

  function FailureResult(reasoning: string): (r: SelectionResult)
    ensures IsFailureShape(r) && r.reasoning == reasoning && r.metadata == None
  {
    SelectionResult([], "", [], reasoning, 0.0, 0, None)
  }
}
