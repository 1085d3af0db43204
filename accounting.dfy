/**
 The metrics record of the Mool AI orchestration chatbot, as a value, and the
 dashboard's cost analysis over it.

 Prices are exact reals (0.02 and 0.01 dollars per call), so no floating-point
 rounding is modelled.
 */
module Accounting {

  /** A snapshot of the six call counters of `metrics_db`. */
  datatype Counters = Counters(
    openaiCalls: nat,
    moolCalls: nat,
    successfulCalls: nat,
    failedCalls: nat,
    higherModelCalls: nat,
    lowerModelCalls: nat)

  /** The counters every session starts with. */
  const Zero := Counters(0, 0, 0, 0, 0, 0)

  /** Calls counted by tier (OpenAI or Mool AI). */
  function TierCalls(c: Counters): nat { c.openaiCalls + c.moolCalls }

  /** Calls counted by outcome (success or failure). */
  function StatusCalls(c: Counters): nat { c.successfulCalls + c.failedCalls }

  /** Calls counted by routing decision (higher or lower model). */
  function RouteCalls(c: Counters): nat { c.higherModelCalls + c.lowerModelCalls }

  /** The three counter pairs account for the same number of calls. */
  predicate Balanced(c: Counters) {
    TierCalls(c) == StatusCalls(c) == RouteCalls(c)
  }

  /** No counter of `a` is larger than the same counter of `b`. */
  predicate NoDecrease(a: Counters, b: Counters) {
    a.openaiCalls <= b.openaiCalls && a.moolCalls <= b.moolCalls &&
    a.successfulCalls <= b.successfulCalls && a.failedCalls <= b.failedCalls &&
    a.higherModelCalls <= b.higherModelCalls && a.lowerModelCalls <= b.lowerModelCalls
  }

  /** Dollars charged for one call to each tier. */
  const CostPerOpenAICall: real := 0.02
  const CostPerMoolCall: real := 0.01

  datatype CostReport = CostReport(costOpenAI: real, costMool: real, savings: real)

  /** The dashboard's cost analysis: cost per tier and the unclamped savings. */
  function Report(c: Counters): (r: CostReport)
    ensures r.savings == r.costOpenAI - r.costMool
    ensures 0.0 <= r.costOpenAI && 0.0 <= r.costMool
    ensures r.costOpenAI == 0.0 <==> c.openaiCalls == 0
    ensures r.costMool == 0.0 <==> c.moolCalls == 0
    ensures r.savings < 0.0 <==> 2 * c.openaiCalls < c.moolCalls
    ensures r.savings == 0.0 <==> 2 * c.openaiCalls == c.moolCalls
  {
    var costOpenAI := c.openaiCalls as real * CostPerOpenAICall;
    var costMool := c.moolCalls as real * CostPerMoolCall;
    CostReport(costOpenAI, costMool, costOpenAI - costMool)
  }

  /** Total spend over both tiers. */
  function TotalCost(r: CostReport): real { r.costOpenAI + r.costMool }

  /** Illustrates the sign clause of `Report` on one record: savings are not
      clamped at zero, so more than twice as many Mool AI calls as OpenAI calls
      report a loss. */
  lemma NegativeSavingsReported()
    ensures Report(Counters(1, 3, 4, 0, 4, 0)).savings < 0.0
  {
  }
}
