# Vendor selection pipeline, modelled in Dafny

This project models the deterministic core of the AI vendor selection agent
(`python_services/ai_vendor_selection_agent.py`). The agent matches one service request to
vendors from a pool. It threads one mutable `AgentState` through six stages:

1. eligibility;
2. a 25 km geographic cut;
3. performance scoring with a stable descending sort;
4. a real-time availability gate;
5. the selection oracle (an LLM in the source);
6. validation with a top-score fallback.

`select_vendors` then turns the final state into a `VendorSelectionResult`.

Modules, one per concern:

- `VendorTypes` (`types.dfy`): the enumerations, `Vendor`, `ServiceRequest`, `ScoredVendor`,
  `SelectionResult`, the oracle's `Candidate` summary and reply, and the reasoning log entries
  (`Step`). Each `Step` carries the numbers its log line prints.
- `Seqs` (`seqs.dfy`): order-preserving `Filter` and `IsSubsequence`, with their lemmas.
- `Scoring` (`scoring.dfy`): `_calculate_performance_score` and `_is_vendor_available`, as pure
  functions over `real`.
- `Ranking` (`ranking.dfy`): the stable sort by score, highest first. This is the behaviour of
  Python's `list.sort(key=..., reverse=True)`. It is given as a reference function and as an
  insertion-sort method proved equal to it.
- `Stages` (`stages.dfy`): what each stage computes, as functions of its inputs, plus the
  validator's decision `Validated` and the lemmas about them.
- `Agent` (`agent.dfy`): the class `AgentState`. Its fields are the source's state fields. Each
  stage method updates them with a loop, as the source does. `Outcome` assembles the result, and
  `SelectVendors` runs the whole pipeline.

Parameters stand in for what the core cannot see:

- The distance is a function `(lat1, lon1, lat2, lon2) -> real`.
- The oracle is a function from the shown candidates and the request to a proposal or a failure
  message.
- "Now" is an integer number of seconds, and so is every `last_seen`.

Behaviour of the code worth noting; the model follows it:

- No stage checks `error_message`. Every stage runs, and only the final assembly consults it.
  The oracle stage's message ("No available vendors found", or the oracle failure) is then
  overwritten by the validator's "No selection result available". So every failed run reports
  that cause (`Agent.SelectVendors`).
- An oracle failure produces the failure result. There is no fallback to the top-scored vendor:
  the fallback happens only when a proposal exists.
- The sort orders by score alone. Equal scores keep their input order; there is no tie-break on
  load or id.
- When a proposal names at least one available vendor, it is kept unchanged, including ids that
  are not available.
- The distance computed by the location stage is not carried forward. Each candidate shown to
  the oracle reports 0 km.
- In the audit metadata, `filtered_vendors` counts the vendors after the location stage, and
  `scored_vendors` counts them after the availability gate.
- A vendor whose `max_concurrent_orders` is 0 makes the score divide by zero. The scoring stage
  then records "Error in performance scoring: division by zero" and changes nothing else. The
  model's order counts are non-negative, and with them this cannot happen after the eligibility
  stage, which `SelectVendors` uses (see "## Left out" for negative counts).

## Model

| member | source | states |
|---|---|---|
| `Agent.AgentState.constructor` | python_services/ai_vendor_selection_agent.py:483-486 | The initial state holds the request and the vendor pool; every working field is empty and no error is set. |
| `Agent.AgentState.FilterVendors` | python_services/ai_vendor_selection_agent.py:189-222 | The filtered list becomes exactly the eligible vendors of the pool, in pool order. One reasoning step with the kept count, the pool size and the service type is appended. Nothing else changes; the pool is a constant. |
| `Agent.AgentState.AnalyzeLocation` | python_services/ai_vendor_selection_agent.py:224-256 | The filtered list becomes the vendors of the previous list that are within 25 km of the customer, in order. One reasoning step with that count is appended. |
| `Agent.AgentState.ScorePerformance` | python_services/ai_vendor_selection_agent.py:258-281 | If every filtered vendor can be scored, the scored list becomes the stable descending ranking of the filtered vendors paired with their scores, and one step is appended. Otherwise only the division-by-zero error is recorded. |
| `Agent.AgentState.CheckAvailability` | python_services/ai_vendor_selection_agent.py:283-303 | The scored list keeps exactly its available entries, with their scores, in their order. One step with the count is appended. |
| `Agent.AgentState.ApplyAiSelection` | python_services/ai_vendor_selection_agent.py:305-353 | An empty scored list sets "No available vendors found" and nothing else. Otherwise the oracle is shown the summaries of the first 10 entries at most. A proposal is stored with one step appended; a failure sets "Error in AI selection: " plus its message. |
| `Agent.AgentState.ValidateSelection` | python_services/ai_vendor_selection_agent.py:355-389 | With no proposal it sets "No selection result available". Otherwise the proposal becomes `Validated(proposal, scored)`, and a step with the confirmed count is appended. |
| `Agent.AgentState.Outcome` | python_services/ai_vendor_selection_agent.py:491-521 | Any set error gives the failure shape with reasoning "Selection failed: " plus the error. No proposal gives the failure shape too. Otherwise the result is the proposal with the audit trail: steps, pool size, post-location count and post-gate count. |
| `Agent.RunWorkflow` | python_services/ai_vendor_selection_agent.py:172-178 | Running the six stages in order on a fresh state leaves the post-location vendors and the gated ranking in the state. If something is available and the oracle proposed, there is no error, the state holds the validated proposal and the log has six steps. Otherwise the error is "No selection result available" and there is no proposal. |
| `Agent.SelectVendors` | python_services/ai_vendor_selection_agent.py:473-535 | End to end: with nothing available, or when the oracle fails, the result is the failure shape, reporting the validator's message. Otherwise it is the validated proposal with its full audit trail, and it selects at least one available vendor. |
| `Scoring.CompletionComponent` | python_services/ai_vendor_selection_agent.py:416-419 | A vendor with no orders gets no completion points. Otherwise the component is 40 times the completed/total ratio, and it is never negative. |
| `Scoring.ResponseComponent` | python_services/ai_vendor_selection_agent.py:425-428 | The response component is never negative. It is 0 from two hours on and at most 15 for a non-negative time. |
| `Scoring.WorkloadComponent` | python_services/ai_vendor_selection_agent.py:434-436 | An idle vendor gets the full 10 points; a vendor within its limit gets between 0 and 10. |
| `Scoring.PriorityBonus` | python_services/ai_vendor_selection_agent.py:438-445 | +20 exactly when the request is urgent, the vendor is online and has no open orders. +15 exactly when the request is low priority and the vendor has fewer than 10 orders. 0 otherwise, so medium and high get nothing. |
| `Scoring.PerformanceScore` | python_services/ai_vendor_selection_agent.py:412-447 | The score never exceeds 100, even when the bonus pushes the sum over. It is either the uncapped sum or exactly 100, and never more than the sum. |
| `Scoring.BaseScoreAtMost100` | python_services/ai_vendor_selection_agent.py:414-436 | With the fields in their documented ranges, the five weighted components sum to a value in [0, 100]. |
| `Scoring.ScoreInRange` | python_services/ai_vendor_selection_agent.py:412-447 | The score lies in [0, 100] whenever the rating is not negative and the vendor is within its order limit. A negative response time, more completed than total orders or a rating above 5 still gives a score in that range. |
| `Scoring.ClampOnlyThroughBonus` | python_services/ai_vendor_selection_agent.py:438-447 | With the fields in their documented ranges, if the cap cuts the score then a priority bonus was added, so the request was urgent or low priority. |
| `Scoring.IsAvailable` | python_services/ai_vendor_selection_agent.py:449-467 | A vendor is available iff all four hold: it is active; it is below its order limit; it is online when the request is urgent; it was seen at most 24 hours before now. |
| `Ranking.SortByScoreCorrect` | python_services/ai_vendor_selection_agent.py:267-268 | The ranking is non-increasing by score and a permutation of its input. It is stable: for every score, the entries with that score appear in the output exactly as in the input. |
| `Ranking.SortDescending` | python_services/ai_vendor_selection_agent.py:267-268 | The insertion sort returns the reference ranking, which is sorted, a permutation of the input and stable. |
| `Stages.EligibleVendorsExact` | python_services/ai_vendor_selection_agent.py:194-208 | A vendor is kept iff it is in the pool, offers the service, is not blocked and is below its limit. The kept list is a subsequence of the pool. |
| `Stages.VendorsInAreaExact` | python_services/ai_vendor_selection_agent.py:230-245 | A vendor is kept iff it is in the input and its distance to the customer is at most 25 km. The kept list is a subsequence of the input. |
| `Stages.EligibleAreScorable` | python_services/ai_vendor_selection_agent.py:204-206 | Every vendor that passed eligibility has an order limit above 0, so its workload score cannot divide by zero. |
| `Stages.VendorsToScore` | python_services/ai_vendor_selection_agent.py:189-256 | Every vendor that reaches the scoring stage in a run can be scored. |
| `Stages.RankedCorrect` | python_services/ai_vendor_selection_agent.py:261-269 | The scoring stage's output is a permutation of the vendors paired with their own scores. It is non-increasing, stable among equal scores, and every score is at most 100. |
| `Stages.AvailableVendorsExact` | python_services/ai_vendor_selection_agent.py:286-292 | An entry is kept iff it is in the input and passes the four availability conditions. The output is a subsequence of the input, and a sorted input stays sorted. |
| `Stages.Shortlist` | python_services/ai_vendor_selection_agent.py:314 | The oracle sees a prefix of the available list of at most 10 entries: all of it when there are 10 or fewer, exactly 10 otherwise. |
| `Stages.ConfirmedIdsEmpty` | python_services/ai_vendor_selection_agent.py:362-370 | No id is confirmed exactly when no available vendor's id is among the proposed ids. |
| `Stages.ValidatedFallback` | python_services/ai_vendor_selection_agent.py:370-377 | If no proposed id is available and the list is non-empty, the top-ranked vendor becomes the sole selected vendor and the primary. The reasoning gains " (Fallback to top-scored vendor)", the other fields (fallback vendors, confidence, response time, metadata) are unchanged, and the log reports 1. |
| `Stages.ValidatedKeeps` | python_services/ai_vendor_selection_agent.py:362-377 | If any proposed id is available, the proposal is left completely unchanged, hallucinated ids included. |
| `Stages.ValidatedSelectsAvailable` | python_services/ai_vendor_selection_agent.py:362-377 | With a non-empty available list, the validated selection names at least one available vendor. |
| `Stages.ValidatedIdempotent` | python_services/ai_vendor_selection_agent.py:355-389 | Validating an already validated proposal against the same list changes nothing. |

## Left out

- `_calculate_distance` (lines 395-410): the haversine formula over numpy floating point. The
  distance is a function parameter, and no symmetry or zero-distance property is claimed.
- The LLM itself, its prompt, the pydantic_ai `Agent` and the LangGraph `StateGraph` wiring
  (lines 121-183, 337-344). The six stages are called in order. The oracle is a function from
  the shown candidates and the request to a proposal or a failure message. The JSON context
  it receives is not modelled beyond those two inputs. How the graph framework returns the
  final state is not modelled.
- Exceptions other than the division by zero in scoring: a malformed oracle reply is one
  `Failed` message. Comparing naive with timezone-aware timestamps, pydantic re-validation in
  the location stage, and the catch-all at lines 526-535 are not modelled.
- Floating point: scores, ratings and distances are exact reals, so IEEE rounding is not
  modelled.
- Clock reads and the timestamp: the source reads `datetime.now()` once per vendor. The model
  takes one `now` for the whole gate. The ISO `selection_timestamp` in the metadata is
  omitted. Timestamps are whole seconds.
- Logging, and the text of the reasoning log lines: each line is a `Step` value carrying the
  numbers it prints.
- The vendor fields `email`, `phone` and `working_hours`, which the core never reads.
- What a proposal carries in its own `selection_metadata`: the model keeps it as given, and the
  result assembly replaces it by the audit trail.
- `Agent.AgentState.Outcome`: it returns the assembled result and does not model the source's
  writing of the metadata into the final state's result object. That object is not observable
  after `select_vendors` returns.
- Negative order counts: `current_orders`, `max_concurrent_orders`, `total_orders` and
  `completed_orders` are `nat` here, while the source's fields are plain `int` and the JSON
  wrapper copies them unchecked. With a negative `current_orders`, a vendor whose
  `max_concurrent_orders` is 0 passes eligibility and then makes scoring divide by zero. So
  `Stages.EligibleAreScorable` and `Stages.VendorsToScore` hold only for non-negative counts.
- `python_services/ai_vendor_selection_api.py` (the stdin/stdout JSON wrapper and its field
  parsing) and the `main()` example code of both files.
