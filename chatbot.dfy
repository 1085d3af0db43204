/**
 The chatbot page: the routing telemetry (`route_call`) and the "Send" step,
 which update the session's metrics record in place.

 The three random draws the page makes are explicit inputs, each a real in
 [0, 1) as Python's `random.random()` returns.
 */
module Chatbot {
  import opened Accounting

  datatype Tier = Mool | OpenAI
  datatype Status = Success | Fail
  datatype Route = Higher | Lower

  /** One press of the page's "Send" control, with the three draws it consumes
      in order: the tier draw, the status draw and the routing draw. */
  datatype Request = Request(
    pressed: bool,
    question: string,
    tierDraw: real,
    statusDraw: real,
    routeDraw: real)

  /** What the page reports back for a request. */
  datatype Outcome = Ignored | Handled(tier: Tier, status: Status, route: Route)

  predicate IsDraw(x: real) { 0.0 <= x < 1.0 }

  predicate WellFormed(req: Request) {
    IsDraw(req.tierDraw) && IsDraw(req.statusDraw) && IsDraw(req.routeDraw)
  }

  /** The handler runs only when the button was pressed and the question is
      non-empty (Python truthiness of a string). */
  predicate Fires(req: Request) { req.pressed && |req.question| > 0 }

  function TierOf(draw: real): Tier { if draw > 0.5 then Mool else OpenAI }

  function StatusOf(draw: real): Status { if draw > 0.1 then Success else Fail }

  function RouteOf(draw: real): Route { if draw < 0.8 then Higher else Lower }

  function Decide(req: Request): Outcome {
    if Fires(req) then
      Handled(TierOf(req.tierDraw), StatusOf(req.statusDraw), RouteOf(req.routeDraw))
    else
      Ignored
  }

  function Bump(b: bool): nat { if b then 1 else 0 }

  /** The effect of one request on the counters. */
  function Step(c: Counters, req: Request): (r: Counters)
    ensures !Fires(req) ==> r == c
    ensures NoDecrease(c, r)
    ensures Fires(req) ==> TierCalls(r) == TierCalls(c) + 1
    ensures Fires(req) ==> StatusCalls(r) == StatusCalls(c) + 1
    ensures Fires(req) ==> RouteCalls(r) == RouteCalls(c) + 1
    ensures r.moolCalls > c.moolCalls <==> Fires(req) && req.tierDraw > 0.5
    ensures r.openaiCalls > c.openaiCalls <==> Fires(req) && req.tierDraw <= 0.5
    ensures r.successfulCalls > c.successfulCalls <==> Fires(req) && req.statusDraw > 0.1
    ensures r.failedCalls > c.failedCalls <==> Fires(req) && req.statusDraw <= 0.1
    ensures r.higherModelCalls > c.higherModelCalls <==> Fires(req) && req.routeDraw < 0.8
    ensures r.lowerModelCalls > c.lowerModelCalls <==> Fires(req) && req.routeDraw >= 0.8
  {
    match Decide(req)
    case Ignored => c
    case Handled(tier, status, route) =>
      c.(moolCalls := c.moolCalls + Bump(tier == Mool),
         openaiCalls := c.openaiCalls + Bump(tier == OpenAI),
         successfulCalls := c.successfulCalls + Bump(status == Success),
         failedCalls := c.failedCalls + Bump(status == Fail),
         higherModelCalls := c.higherModelCalls + Bump(route == Higher),
         lowerModelCalls := c.lowerModelCalls + Bump(route == Lower))
  }

  /** The session's `metrics_db` record, updated in place. */
  class MetricsDb {
    var openaiCalls: nat
    var moolCalls: nat
    var successfulCalls: nat
    var failedCalls: nat
    var higherModelCalls: nat
    var lowerModelCalls: nat

    function Snapshot(): Counters
      reads this
    {
      Counters(openaiCalls, moolCalls, successfulCalls, failedCalls,
               higherModelCalls, lowerModelCalls)
    }

    /** A new session: every counter is zero. */
    constructor ()
      ensures Snapshot() == Zero
    {
      openaiCalls, moolCalls := 0, 0;
      successfulCalls, failedCalls := 0, 0;
      higherModelCalls, lowerModelCalls := 0, 0;
    }

    /** Classifies a call as going to the higher or the lower model and counts it. */
    method RouteCall(draw: real) returns (routed: Route)
      requires IsDraw(draw)
      modifies this
      ensures routed == Higher <==> draw < 0.8
      ensures routed == Higher ==>
        higherModelCalls == old(higherModelCalls) + 1 && lowerModelCalls == old(lowerModelCalls)
      ensures routed == Lower ==>
        lowerModelCalls == old(lowerModelCalls) + 1 && higherModelCalls == old(higherModelCalls)
      ensures openaiCalls == old(openaiCalls) && moolCalls == old(moolCalls)
      ensures successfulCalls == old(successfulCalls) && failedCalls == old(failedCalls)
    {
      if draw < 0.8 {
        higherModelCalls := higherModelCalls + 1;
        routed := Higher;
      } else {
        lowerModelCalls := lowerModelCalls + 1;
        routed := Lower;
      }
    }

    /** The "Send" handler: picks a tier and an outcome, counts both, then routes. */
    method Send(req: Request) returns (outcome: Outcome)
      requires WellFormed(req)
      modifies this
      ensures outcome == Decide(req)
      ensures outcome.Handled? ==> (outcome.tier == Mool <==> req.tierDraw > 0.5)
      ensures outcome.Handled? ==> (outcome.status == Success <==> req.statusDraw > 0.1)
      ensures outcome.Handled? ==> (outcome.route == Higher <==> req.routeDraw < 0.8)
      ensures Snapshot() == Step(old(Snapshot()), req)
      ensures old(Balanced(Snapshot())) ==> Balanced(Snapshot())
    {
      if req.pressed && |req.question| > 0 {
        var tier := if req.tierDraw > 0.5 then Mool else OpenAI;
        var status := if req.statusDraw > 0.1 then Success else Fail;
        moolCalls := moolCalls + (if tier == Mool then 1 else 0);
        openaiCalls := openaiCalls + (if tier == OpenAI then 1 else 0);
        successfulCalls := successfulCalls + (if status == Success then 1 else 0);
        failedCalls := failedCalls + (if status == Fail then 1 else 0);
        var routed := RouteCall(req.routeDraw);
        outcome := Handled(tier, status, routed);
      } else {
        outcome := Ignored;
      }
    }
  }

  /** The counters after a session's requests, in order. */
  function Run(c: Counters, reqs: seq<Request>): Counters
    decreases |reqs|
  {
    if reqs == [] then c else Run(Step(c, reqs[0]), reqs[1..])
  }

  /** How many of the requests reach the handler. */
  function HandledCount(reqs: seq<Request>): nat
    decreases |reqs|
  {
    if reqs == [] then 0 else Bump(Fires(reqs[0])) + HandledCount(reqs[1..])
  }

  /** Each counter pair grows by exactly the number of handled requests. */
  lemma {:induction false} RunCounts(c: Counters, reqs: seq<Request>)
    ensures TierCalls(Run(c, reqs)) == TierCalls(c) + HandledCount(reqs)
    ensures StatusCalls(Run(c, reqs)) == StatusCalls(c) + HandledCount(reqs)
    ensures RouteCalls(Run(c, reqs)) == RouteCalls(c) + HandledCount(reqs)
    decreases |reqs|
  {
    if reqs != [] {
      RunCounts(Step(c, reqs[0]), reqs[1..]);
    }
  }

  /** Requests keep the three counter pairs equal once they are. */
  lemma {:induction false} RunBalanced(c: Counters, reqs: seq<Request>)
    requires Balanced(c)
    ensures Balanced(Run(c, reqs))
  {
    RunCounts(c, reqs);
  }

  /** From a fresh session, any sequence of requests keeps the three pairs equal. */
  lemma {:induction false} SessionBalanced(reqs: seq<Request>)
    ensures Balanced(Run(Zero, reqs))
  {
    RunBalanced(Zero, reqs);
  }

  /** From a fresh session, the tier counters together count exactly the
      handled requests. */
  lemma {:induction false} SessionCount(reqs: seq<Request>)
    ensures TierCalls(Run(Zero, reqs)) == HandledCount(reqs)
  {
    RunCounts(Zero, reqs);
  }

  /** No counter ever decreases over a session. */
  lemma {:induction false} RunNoDecrease(c: Counters, reqs: seq<Request>)
    ensures NoDecrease(c, Run(c, reqs))
    decreases |reqs|
  {
    if reqs != [] {
      RunNoDecrease(Step(c, reqs[0]), reqs[1..]);
    }
  }

  /** The per-call price of a tier. */
  function Price(t: Tier): real {
    match t
    case Mool => CostPerMoolCall
    case OpenAI => CostPerOpenAICall
  }

  /** Dollars charged for the handled requests, each at its tier's price. */
  function Charges(reqs: seq<Request>): real
    decreases |reqs|
  {
    if reqs == [] then 0.0
    else (if Fires(reqs[0]) then Price(TierOf(reqs[0].tierDraw)) else 0.0) + Charges(reqs[1..])
  }

  /** One handled request raises its tier's cost by that tier's price and leaves
      the other tier's cost alone; an ignored one changes no figure. */
  lemma StepCost(c: Counters, req: Request)
    ensures var before, after := Report(c), Report(Step(c, req));
      if !Fires(req) then after == before
      else if TierOf(req.tierDraw) == Mool then
        after.costMool == before.costMool + CostPerMoolCall &&
        after.costOpenAI == before.costOpenAI &&
        after.savings == before.savings - CostPerMoolCall
      else
        after.costOpenAI == before.costOpenAI + CostPerOpenAICall &&
        after.costMool == before.costMool &&
        after.savings == before.savings + CostPerOpenAICall
  {
  }

  /** The reported total cost is the sum of the handled requests' prices. */
  lemma {:induction false} RunCost(c: Counters, reqs: seq<Request>)
    ensures TotalCost(Report(Run(c, reqs))) == TotalCost(Report(c)) + Charges(reqs)
    decreases |reqs|
  {
    if reqs != [] {
      StepCost(c, reqs[0]);
      RunCost(Step(c, reqs[0]), reqs[1..]);
    }
  }
}
