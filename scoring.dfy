/** The two per-vendor utilities of the selection agent: the performance score and the
    real-time availability check. Both are pure. Scores are exact reals here. */
module Scoring {
  import opened VendorTypes

  /** The availability window: a vendor must have been seen within the last 24 hours. */
  const SECONDS_PER_DAY: int := 24 * 60 * 60

  /** The completion-rate component, worth up to 40 points; a vendor with no orders gets none. */
  function CompletionComponent(v: Vendor): (c: real)
    ensures v.totalOrders == 0 ==> c == 0.0
    ensures v.totalOrders > 0 ==> c * (v.totalOrders as real) == 40.0 * (v.completedOrders as real)
    ensures 0.0 <= c
  {
    if v.totalOrders > 0 then (v.completedOrders as real / v.totalOrders as real) * 40.0 else 0.0
  }

  /** The rating component: the 0..5 rating scaled to 25 points. */
  function RatingComponent(v: Vendor): real
  {
    (v.averageRating / 5.0) * 25.0
  }

  /** The response-speed component: 15 points for an instant response, falling linearly to 0 at
      two hours and never negative. */
  function ResponseComponent(v: Vendor): (c: real)
    ensures 0.0 <= c
    ensures v.responseTimeMinutes >= 120.0 ==> c == 0.0
    ensures v.responseTimeMinutes >= 0.0 ==> c <= 15.0
  {
    var speed := (120.0 - v.responseTimeMinutes) / 120.0;
    (if speed < 0.0 then 0.0 else speed) * 15.0
  }

  /** The 10-point bonus for being online. */
  function OnlineComponent(v: Vendor): real
  {
    if v.isOnline then 10.0 else 0.0
  }

  /** The workload component: 10 points for an idle vendor, none for a full one. */
  function WorkloadComponent(v: Vendor): (c: real)
    requires v.maxConcurrentOrders > 0
    ensures v.currentOrders == 0 ==> c == 10.0
    ensures v.currentOrders <= v.maxConcurrentOrders ==> 0.0 <= c <= 10.0
  {
    (1.0 - (v.currentOrders as real / v.maxConcurrentOrders as real)) * 10.0
  }

  /** The weighted sum of the five components, before any priority adjustment. */
  function BaseScore(v: Vendor): real
    requires v.maxConcurrentOrders > 0
  {
    CompletionComponent(v) + RatingComponent(v) + ResponseComponent(v)
    + OnlineComponent(v) + WorkloadComponent(v)
  }

  /** The priority adjustment: urgent requests reward an online vendor with no open orders,
      low-priority requests give vendors with fewer than ten orders a chance; medium and high
      requests adjust nothing. */
  function PriorityBonus(v: Vendor, priority: Priority): (b: real)
    ensures b == 20.0 <==> priority == Urgent && v.isOnline && v.currentOrders == 0
    ensures b == 15.0 <==> priority == Low && v.totalOrders < 10
    ensures b == 0.0 <==> !(priority == Urgent && v.isOnline && v.currentOrders == 0)
                          && !(priority == Low && v.totalOrders < 10)
  {
    match priority
    case Urgent => if v.isOnline && v.currentOrders == 0 then 20.0 else 0.0
    case Low => if v.totalOrders < 10 then 15.0 else 0.0
    case _ => 0.0
  }

  /** The performance score of a vendor for a request: the base score plus the priority
      adjustment, capped at 100. The cap is applied after the bonus, so a bonus can be absorbed. */
  function PerformanceScore(v: Vendor, request: ServiceRequest): (r: real)
    requires v.maxConcurrentOrders > 0
    ensures r <= 100.0
    ensures r <= BaseScore(v) + PriorityBonus(v, request.priority)
    ensures r == 100.0 || r == BaseScore(v) + PriorityBonus(v, request.priority)
  {
    var score := BaseScore(v) + PriorityBonus(v, request.priority);
    if score < 100.0 then score else 100.0
  }

  /** The ranges the input boundary guarantees for the fields the score reads. */
  predicate InDocumentedRange(v: Vendor)
  {
    v.completedOrders <= v.totalOrders
    && 0.0 <= v.averageRating <= 5.0
    && 0.0 <= v.responseTimeMinutes
    && v.currentOrders <= v.maxConcurrentOrders
  }

  /** With every field in its documented range the five components sum to at most 100, so the
      cap at 100 can only be reached through a priority bonus. */
  lemma BaseScoreAtMost100(v: Vendor)
    requires v.maxConcurrentOrders > 0 && InDocumentedRange(v)
    ensures 0.0 <= BaseScore(v) <= 100.0
  {
    if v.totalOrders > 0 {
      RatioAtMostOne(v.completedOrders as real, v.totalOrders as real);
    }
  }

  /** A part over a positive whole is at most 1. */
  lemma RatioAtMostOne(part: real, whole: real)
    requires 0.0 <= part <= whole && 0.0 < whole
    ensures part / whole <= 1.0
  {
    var r := part / whole;
    assert r * whole == part;
    assert (1.0 - r) * whole == whole - part;
  }

  /** The score is in [0, 100] whenever the rating is not negative and the vendor is within its
      order limit. A negative response time, more completed than total orders or a rating above 5
      cannot push it out: every component stays non-negative and the cap bounds it above. */
  lemma ScoreInRange(v: Vendor, request: ServiceRequest)
    requires v.maxConcurrentOrders > 0
    requires 0.0 <= v.averageRating && v.currentOrders <= v.maxConcurrentOrders
    ensures 0.0 <= PerformanceScore(v, request) <= 100.0
  {
  }

  /** When the score is clipped, the bonus is what pushed it over: without a bonus nothing
      in the documented ranges reaches the cap. */
  lemma ClampOnlyThroughBonus(v: Vendor, request: ServiceRequest)
    requires v.maxConcurrentOrders > 0 && InDocumentedRange(v)
    requires PerformanceScore(v, request) < BaseScore(v) + PriorityBonus(v, request.priority)
    ensures PriorityBonus(v, request.priority) > 0.0
    ensures request.priority == Urgent || request.priority == Low
  {
    BaseScoreAtMost100(v);
  }

  /** Whether a vendor can take a new order now: active, below its order limit, online when the
      request is urgent, and seen within the last 24 hours. The checks run in the order of the
      source and each failing one answers false. */
  function IsAvailable(v: Vendor, request: ServiceRequest, now: int): (r: bool)
    ensures r <==>
      v.status == Active && v.currentOrders < v.maxConcurrentOrders
      && (request.priority == Urgent ==> v.isOnline)
      && now - v.lastSeen <= SECONDS_PER_DAY
  {
    if v.status != Active then false
    else if v.currentOrders >= v.maxConcurrentOrders then false
    else if request.priority == Urgent && !v.isOnline then false
    else if now - v.lastSeen > SECONDS_PER_DAY then false
    else true
  }
}
