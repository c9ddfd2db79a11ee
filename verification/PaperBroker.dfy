/** The deterministic paper broker: pinned market events, participation-capped fills, idempotent by request key. */
module PaperBroker {
  import opened FeeTax
  import opened OmsModel
  import opened Wrappers

  datatype MarketEvent = MarketEvent(time: int, referencePrice: real, volume: int, suspended: bool, limitLocked: bool)

  datatype BrokerPolicy = BrokerPolicy(latency: int, participationCap: real, slippageBps: real, rejectAll: bool)

  datatype CommandError = QuantityNotPositive

  /** `int((volume * cap).to_integral_value(ROUND_FLOOR))`. */
  function Capacity(m: MarketEvent, p: BrokerPolicy): int {
    (m.volume as real * p.participationCap).Floor
  }

  /** Adverse slippage on the reference price. */
  function FillPrice(m: MarketEvent, p: BrokerPolicy, side: Side): real {
    var slip := p.slippageBps / 10000.0;
    m.referencePrice * if side == Buy then 1.0 + slip else 1.0 - slip
  }

  function Fill(m: MarketEvent, p: BrokerPolicy, request: OrderId): PaperFill {
    var quantity := Min(request.quantity, Capacity(m, p));
    var identity := FillIdentity(request.key, quantity, FillPrice(m, p, request.side));
    PaperFill(Digest(identity), identity, quantity, FillPrice(m, p, request.side), m.time)
  }

  /** The answer to a request key seen for the first time. A request is an order identity. */
  function Respond(market: map<string, MarketEvent>, p: BrokerPolicy, request: OrderId): BrokerResult {
    if request.instrument !in market then BrokerResult(p.latency, true, "missing_market_event", [])
    else
      var m := market[request.instrument];
      var at := m.time + p.latency;
      if p.rejectAll then BrokerResult(at, true, "injected_reject", [])
      else if m.suspended then BrokerResult(at, false, "suspended_no_fill", [])
      else if m.limitLocked then BrokerResult(at, false, "limit_locked_no_fill", [])
      else if m.volume <= 0 then BrokerResult(at, false, "zero_volume_no_fill", [])
      else
        var fill := Fill(m, p, request);
        BrokerResult(at, false, if fill.quantity == request.quantity then "filled" else "partial_fill", [fill])
  }

  /** The broker fills, but the participation cap leaves it nothing to fill with. */
  predicate ZeroCapacity(market: map<string, MarketEvent>, p: BrokerPolicy, request: OrderId) {
    && request.instrument in market && !p.rejectAll
    && var m := market[request.instrument];
       !m.suspended && !m.limitLocked && m.volume > 0 && Capacity(m, p) <= 0
  }

  /** The one fill of an open market: the request, or the largest whole share of the volume under the cap. */
  ghost predicate IsFill(m: MarketEvent, p: BrokerPolicy, request: OrderId, fill: PaperFill) {
    && fill.quantity <= request.quantity
    && (forall share :: share == m.volume as real * p.participationCap ==>
          IsWithin(fill.quantity, request.quantity, share))
    && fill.price * 10000.0 == m.referencePrice * (if request.side == Buy then 10000.0 + p.slippageBps
                                                   else 10000.0 - p.slippageBps)
    && fill.time == m.time && fill.identity == FillIdentity(request.key, fill.quantity, fill.price)
    && fill.fillId == Digest(fill.identity)
  }

  predicate IsWithin(quantity: int, requested: int, share: real) {
    quantity as real <= share && (quantity == requested || share < quantity as real + 1.0)
  }

  /** What the broker answers to a request key seen for the first time, in plain numbers. */
  ghost predicate IsAnswer(market: map<string, MarketEvent>, p: BrokerPolicy, request: OrderId, r: BrokerResult) {
    if request.instrument !in market
    then r.rejected && r.reason == "missing_market_event" && r.fills == [] && r.acknowledgedAt == p.latency
    else
      var m := market[request.instrument];
      && r.acknowledgedAt == m.time + p.latency && r.rejected == p.rejectAll
      && if p.rejectAll then r.reason == "injected_reject" && r.fills == []
         else if m.suspended || m.limitLocked || m.volume <= 0
         then r.fills == []
              && r.reason == (if m.suspended then "suspended_no_fill"
                              else if m.limitLocked then "limit_locked_no_fill" else "zero_volume_no_fill")
         else |r.fills| == 1 && IsFill(m, p, request, r.fills[0])
              && r.reason == if r.fills[0].quantity == request.quantity then "filled" else "partial_fill"
  }

  lemma RespondAnswers(market: map<string, MarketEvent>, p: BrokerPolicy, request: OrderId)
    ensures IsAnswer(market, p, request, Respond(market, p, request))
  {
    hide Fill, IsFill;
    if request.instrument in market {
      FillIsFill(market[request.instrument], p, request);
    }
  }

  lemma FillIsFill(m: MarketEvent, p: BrokerPolicy, request: OrderId)
    ensures IsFill(m, p, request, Fill(m, p, request))
  {
    hide FillPrice, Capacity, IsWithin;
    PriceIs(m, p, request.side);
    forall share | share == m.volume as real * p.participationCap
      ensures IsWithin(Fill(m, p, request).quantity, request.quantity, share)
      ensures Fill(m, p, request).quantity <= request.quantity
    {
      CapacityIs(m, p, share);
      FloorIs(share, Capacity(m, p));
      WithinIs(request.quantity, Capacity(m, p), share);
    }
  }

  lemma WithinIs(requested: int, capacity: int, share: real)
    requires capacity as real <= share < capacity as real + 1.0
    ensures IsWithin(Min(requested, capacity), requested, share)
  {
  }

  lemma CapacityIs(m: MarketEvent, p: BrokerPolicy, share: real)
    requires share == m.volume as real * p.participationCap
    ensures Capacity(m, p) == share.Floor
  {
  }

  lemma PriceIs(m: MarketEvent, p: BrokerPolicy, side: Side)
    ensures FillPrice(m, p, side) * 10000.0 ==
            m.referencePrice * (if side == Buy then 10000.0 + p.slippageBps else 10000.0 - p.slippageBps)
  {
    var slip := p.slippageBps / 10000.0;
    assert p.slippageBps == slip * 10000.0;
    assert m.referencePrice * p.slippageBps == m.referencePrice * slip * 10000.0;
  }

  /** A first answer holds at most one fill, within the request, under an identity of its own key. */
  lemma RespondFacts(market: map<string, MarketEvent>, p: BrokerPolicy, request: OrderId)
    ensures var r := Respond(market, p, request);
            && |r.fills| <= 1 && (r.rejected ==> r.fills == [])
            && (forall i :: 0 <= i < |r.fills| ==>
                  && r.fills[i].quantity <= request.quantity
                  && r.fills[i].identity == FillIdentity(request.key, r.fills[i].quantity, r.fills[i].price)
                  && r.fills[i].fillId == Digest(r.fills[i].identity))
            && (request.quantity >= 1 ==>
                  (ZeroCapacity(market, p, request) <==> exists i :: 0 <= i < |r.fills| && r.fills[i].quantity <= 0))
  {
    if request.instrument in market {
      var m := market[request.instrument];
      assert request.quantity >= 1 ==> (Fill(m, p, request).quantity <= 0 <==> Capacity(m, p) <= 0);
      if |Respond(market, p, request).fills| == 1 {
        assert Respond(market, p, request).fills[0] == Fill(m, p, request);
      }
    }
  }

  /** How a broker with these recorded responses answers. */
  function Answers(responses: map<int, BrokerResult>, market: map<string, MarketEvent>,
                   p: BrokerPolicy): OrderId -> BrokerResult {
    (request: OrderId) => if request.key in responses then responses[request.key] else Respond(market, p, request)
  }

  /** The request `i` is the first one with its key. */
  predicate IsFirst(submitted: seq<OrderId>, i: nat)
    requires i < |submitted|
  {
    forall k :: 0 <= k < i ==> submitted[k].key != submitted[i].key
  }

  /** Some first request came from the client. */
  ghost predicate Known(submitted: seq<OrderId>, client: string) {
    exists i :: 0 <= i < |submitted| && IsFirst(submitted, i) && submitted[i].client == client
  }

  lemma FirstStays(submitted: seq<OrderId>, request: OrderId)
    ensures var more := submitted + [request];
      && (forall i :: 0 <= i < |submitted| ==> more[i] == submitted[i] && (IsFirst(more, i) <==> IsFirst(submitted, i)))
      && more[|submitted|] == request
      && (IsFirst(more, |submitted|) <==> forall k :: 0 <= k < |submitted| ==> submitted[k].key != request.key)
  {
    var more := submitted + [request];
    assert forall k :: 0 <= k < |submitted| ==> more[k] == submitted[k];
    forall i | 0 <= i < |submitted|
      ensures IsFirst(more, i) <==> IsFirst(submitted, i)
    {
      if IsFirst(more, i) {
        assert forall k :: 0 <= k < i ==> submitted[k].key == more[k].key != more[i].key;
      }
    }
    if IsFirst(more, |submitted|) {
      assert forall k :: 0 <= k < |submitted| ==> submitted[k].key == more[k].key != request.key;
    }
  }

  /** The answers on record are those to the first request of each key, and the clients of these are known. */
  ghost predicate OnRecord(submitted: seq<OrderId>, responses: map<int, BrokerResult>, requests: map<string, OrderId>,
                           market: map<string, MarketEvent>, p: BrokerPolicy)
  {
    && (forall i :: 0 <= i < |submitted| ==> submitted[i].key in responses)
    && (forall key :: key in responses ==>
          exists i :: 0 <= i < |submitted| && IsFirst(submitted, i) && submitted[i].key == key)
    && (forall i :: 0 <= i < |submitted| && IsFirst(submitted, i) ==>
          responses[submitted[i].key] == Respond(market, p, submitted[i]))
    && (forall client :: client in requests <==> Known(submitted, client))
  }

  /** A repeated request is the first with its key nowhere, so the same clients are known. */
  lemma RepeatedKnown(submitted: seq<OrderId>, request: OrderId, client: string)
    requires exists k :: 0 <= k < |submitted| && submitted[k].key == request.key
    ensures Known(submitted + [request], client) <==> Known(submitted, client)
  {
    hide IsFirst;
    var more := submitted + [request];
    FirstStays(submitted, request);
    if Known(submitted, client) {
      var i :| 0 <= i < |submitted| && IsFirst(submitted, i) && submitted[i].client == client;
      assert IsFirst(more, i) && more[i].client == client;
    }
    if Known(more, client) {
      var i :| 0 <= i < |more| && IsFirst(more, i) && more[i].client == client;
      assert i < |submitted| && IsFirst(submitted, i);
    }
  }

  lemma RepeatedFirst(submitted: seq<OrderId>, request: OrderId, key: int)
    requires exists i :: 0 <= i < |submitted| && IsFirst(submitted, i) && submitted[i].key == key
    ensures exists i :: 0 <= i < |submitted| && IsFirst(submitted + [request], i)
                        && (submitted + [request])[i].key == key
                        && (submitted + [request])[i] == submitted[i] && IsFirst(submitted, i)
  {
    hide IsFirst;
    FirstStays(submitted, request);
    var i :| 0 <= i < |submitted| && IsFirst(submitted, i) && submitted[i].key == key;
    assert IsFirst(submitted + [request], i);
  }

  /** Repeating a request leaves the record as it is. */
  lemma RecordRepeated(submitted: seq<OrderId>, responses: map<int, BrokerResult>, requests: map<string, OrderId>,
                       market: map<string, MarketEvent>, p: BrokerPolicy, request: OrderId)
    requires OnRecord(submitted, responses, requests, market, p) && request.key in responses
    ensures OnRecord(submitted + [request], responses, requests, market, p)
    ensures exists i :: 0 <= i < |submitted + [request]| && IsFirst(submitted + [request], i)
                        && (submitted + [request])[i].key == request.key
                        && responses[request.key] == Respond(market, p, (submitted + [request])[i])
  {
    hide Respond, IsFirst, Known;
    FirstStays(submitted, request);
    var more := submitted + [request];
    RepeatedFirst(submitted, request, request.key);
    forall key | key in responses
      ensures exists i :: 0 <= i < |more| && IsFirst(more, i) && more[i].key == key
    {
      RepeatedFirst(submitted, request, key);
    }
    forall client
      ensures client in requests <==> Known(more, client)
    {
      RepeatedKnown(submitted, request, client);
    }
  }

  /** A new key adds its own answer and client. */
  lemma RecordAdded(submitted: seq<OrderId>, responses: map<int, BrokerResult>, requests: map<string, OrderId>,
                    market: map<string, MarketEvent>, p: BrokerPolicy, request: OrderId)
    requires OnRecord(submitted, responses, requests, market, p) && request.key !in responses
    ensures OnRecord(submitted + [request], responses[request.key := Respond(market, p, request)],
                     requests[request.client := request], market, p)
    ensures IsFirst(submitted + [request], |submitted|)
  {
    hide Respond;
    FirstStays(submitted, request);
    var more := submitted + [request];
    forall key | key in responses
      ensures exists i :: 0 <= i < |more| && IsFirst(more, i) && more[i].key == key
    {
      var i :| 0 <= i < |submitted| && IsFirst(submitted, i) && submitted[i].key == key;
      assert IsFirst(more, i) && more[i].key == key;
    }
    forall client
      ensures client in requests[request.client := request] <==> Known(more, client)
    {
      if i :| 0 <= i < |submitted| && IsFirst(submitted, i) && submitted[i].client == client {
        assert IsFirst(more, i) && more[i].client == client;
      }
      if client == request.client {
        assert IsFirst(more, |submitted|) && more[|submitted|].client == client;
      }
    }
  }

  class DeterministicPaperBroker {
    const market: map<string, MarketEvent>
    const policy: BrokerPolicy
    var responses: map<int, BrokerResult>
    var requests: map<string, OrderId>
    /** Every request, in order. */
    ghost var submitted: seq<OrderId>

    ghost predicate Valid()
      reads this
    {
      OnRecord(submitted, responses, requests, market, policy)
    }

    constructor (market: map<string, MarketEvent>, policy: BrokerPolicy)
      ensures this.market == market && this.policy == policy && Valid()
      ensures responses == map[] && requests == map[] && submitted == []
    {
      this.market, this.policy := market, policy;
      responses, requests, submitted := map[], map[], [];
    }

    /** How the broker answers requests now. */
    function Replies(): OrderId -> BrokerResult
      reads this
    {
      Answers(responses, market, policy)
    }

    /** `submit`: the answer is fixed by the first request with its key, and repeating it changes nothing. */
    method Submit(request: OrderId) returns (result: BrokerResult)
      requires Valid()
      modifies this
      ensures Valid() && submitted == old(submitted) + [request]
      ensures exists i :: 0 <= i < |submitted| && IsFirst(submitted, i) && submitted[i].key == request.key
                          && result == Respond(market, policy, submitted[i])
      ensures exists i :: 0 <= i < |submitted| && IsFirst(submitted, i) && submitted[i].key == request.key
                          && IsAnswer(market, policy, submitted[i], result)
      ensures Replies()(request) == result == old(Replies()(request))
      ensures forall other: OrderId :: other.key != request.key ==> Replies()(other) == old(Replies()(other))
      ensures request.key in old(responses) ==> responses == old(responses) && requests == old(requests)
    {
      hide Respond, OnRecord, IsFirst, IsAnswer;
      if request.key in responses {
        result := responses[request.key];
        RecordRepeated(submitted, responses, requests, market, policy, request);
      } else {
        result := Respond(market, policy, request);
        RecordAdded(submitted, responses, requests, market, policy, request);
        requests := requests[request.client := request];
        responses := responses[request.key := result];
        assert (submitted + [request])[|submitted|] == request;
      }
      submitted := submitted + [request];
      ghost var i :| 0 <= i < |submitted| && IsFirst(submitted, i) && submitted[i].key == request.key
                     && result == Respond(market, policy, submitted[i]);
      RespondAnswers(market, policy, submitted[i]);
    }

    /** `cancel` knows the clients whose request was the first with its key. */
    method Cancel(client: string) returns (status: string)
      requires Valid()
      ensures status in {"cancelled", "unknown_order"}
      ensures status == "cancelled" <==>
                exists i :: 0 <= i < |submitted| && IsFirst(submitted, i) && submitted[i].client == client
    {
      status := if client in requests then "cancelled" else "unknown_order";
    }

    method Replace(client: string, quantity: int) returns (r: Result<string, CommandError>)
      requires Valid()
      ensures r.Err? <==> quantity < 1
      ensures r.Ok? ==> r.value in {"replaced", "unknown_order"}
      ensures r.Ok? ==> (r.value == "replaced" <==>
                           exists i :: 0 <= i < |submitted| && IsFirst(submitted, i) && submitted[i].client == client)
    {
      if quantity < 1 {
        return Err(QuantityNotPositive);
      }
      r := Ok(if client in requests then "replaced" else "unknown_order");
    }
  }
}
