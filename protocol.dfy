// The agent-to-agent negotiation of app/agent/protocol.py. `A2AProtocol`
// keeps the active negotiations in a dict keyed by conversation id and sends
// messages through Kafka; here the dict is a map field, the producer is the
// `connected` flag, and every message sent is appended to the `sent` log.

module Protocol {
  import opened Wrappers
  import opened Json
  import opened AgentModels
  import Text
  import Clock

  // ---------------------------------------------------------------------
  // State transitions

  /** `if terms:` — given and non-empty. */
  predicate HasTerms(terms: Option<Dict>)
  {
    terms.Some? && terms.value != []
  }

  /** The agent on the other side: the seller for the buyer, the buyer for anyone else. */
  function Recipient(s: NegotiationState, agentId: Uuid): (to: Uuid)
    ensures agentId == s.buyerAgentId ==> to == s.sellerAgentId
    ensures agentId != s.buyerAgentId ==> to == s.buyerAgentId
  {
    if agentId == s.buyerAgentId then s.sellerAgentId else s.buyerAgentId
  }

  /** `make_offer` on the state: the offer becomes current, one more round, the terms merged in. */
  function Offered(s: NegotiationState, price: real, terms: Option<Dict>): NegotiationState
  {
    s.(currentOffer := Some(price), rounds := s.rounds + 1,
       additionalTerms := if HasTerms(terms) then Update(s.additionalTerms, terms.value) else s.additionalTerms)
  }

  /** An offer becomes the current one and takes one more round; without terms nothing else changes. */
  lemma OfferedFields(s: NegotiationState, price: real, terms: Option<Dict>)
    ensures Offered(s, price, terms).currentOffer == Some(price) && Offered(s, price, terms).rounds == s.rounds + 1
    ensures Offered(s, price, terms).(currentOffer := s.currentOffer, rounds := s.rounds, additionalTerms := s.additionalTerms) == s
    ensures !HasTerms(terms) ==> Offered(s, price, terms).additionalTerms == s.additionalTerms
  {
  }

  /** The merged terms take each offered term and keep every other earlier one. */
  lemma OfferedTerms(s: NegotiationState, price: real, terms: Dict, k: string)
    requires terms != [] && UniqueKeys(terms)
    ensures HasKey(terms, k) ==> Lookup(Offered(s, price, Some(terms)).additionalTerms, k) == Lookup(terms, k)
    ensures !HasKey(terms, k) ==> Lookup(Offered(s, price, Some(terms)).additionalTerms, k) == Lookup(s.additionalTerms, k)
  {
    UpdateLookup(s.additionalTerms, terms, k);
  }

  /** `not state.current_offer`: no offer, or an offer of 0. */
  predicate NoOffer(s: NegotiationState)
  {
    s.currentOffer.None? || s.currentOffer.value == 0.0
  }

  /** `accept_offer` on the state: agreed at the current offer with a copy of the terms. */
  function Accepted(s: NegotiationState): (r: Result<NegotiationState>)
    ensures r.Ok? <==> !NoOffer(s)
    ensures r.Err? ==> r.error == ValueError("No offer to accept")
    ensures r.Ok? ==> r.value.status == "agreed" && r.value.agreedPrice == s.currentOffer
                      && r.value.agreedTerms == Some(s.additionalTerms)
                      && r.value.(status := s.status, agreedPrice := s.agreedPrice, agreedTerms := s.agreedTerms) == s
  {
    if NoOffer(s) then Err(ValueError("No offer to accept"))
    else Ok(s.(status := "agreed", agreedPrice := s.currentOffer, agreedTerms := Some(s.additionalTerms)))
  }

  /** `reject_offer` on the state: failed, nothing else changes. */
  function Rejected(s: NegotiationState): (r: NegotiationState)
    ensures r.status == "failed" && r.(status := s.status) == s
  {
    s.(status := "failed")
  }

  /** An offer made is accepted at its price and with the terms so far. */
  lemma AcceptAfterOffer(s: NegotiationState, price: real, terms: Option<Dict>)
    requires price != 0.0
    ensures var o := Offered(s, price, terms);
      Accepted(o).Ok? && Accepted(o).value.agreedPrice == Some(price)
      && Accepted(o).value.agreedTerms == Some(o.additionalTerms) && Accepted(o).value.rounds == s.rounds + 1
  {
  }

  /** An offer of 0 cannot be accepted. */
  lemma ZeroOfferNotAcceptable(s: NegotiationState, terms: Option<Dict>)
    ensures Accepted(Offered(s, 0.0, terms)) == Err(ValueError("No offer to accept"))
  {
  }

  // ---------------------------------------------------------------------
  // Messages

  function NotFound(conversationId: Uuid): PyError
  {
    ValueError("Negotiation " + conversationId + " not found")
  }

  /** The opening "request" from buyer to seller; `iso` formats the deadline (`Clock.IsoFormat`). */
  function RequestMessage(s: NegotiationState, iso: Clock.Instant -> string): (m: A2AMessage)
    ensures m.fromAgentId == s.buyerAgentId && m.toAgentId == s.sellerAgentId
    ensures m.conversationId == s.conversationId && m.messageType == "request"
    ensures m.requiresResponse && m.offer.None?
    ensures Lookup(m.payload, "item") == Some(JStr(s.itemDescription))
    ensures Lookup(m.payload, "quantity") == Some(JInt(s.itemQuantity))
  {
    A2AMessage(s.buyerAgentId, s.sellerAgentId, s.conversationId, "request",
               "Здравствуйте! Ищу: " + s.itemDescription + ", количество: " + Text.IntToString(s.itemQuantity)
               + ". Готов обсудить условия.",
               [("item", JStr(s.itemDescription)), ("quantity", JInt(s.itemQuantity)),
                ("deadline", if s.deliveryDeadline.Some? then JStr(iso(s.deliveryDeadline.value)) else JNull)],
               None, true)
  }

  /** An offer from the buyer goes to the seller as "offer"; anyone else's to the buyer as "counter_offer". */
  function OfferMessage(s: NegotiationState, agentId: Uuid, price: real, terms: Option<Dict>): A2AMessage
  {
    var content := "Предлагаю цену: " + Text.RealRepr(price) + " руб."
                   + (if HasTerms(terms) then " Условия: " + PyRepr(JObj(terms.value)) else "");
    var offer := [("price", JFloat(price)), ("quantity", JInt(s.itemQuantity)),
                  ("terms", JObj(if HasTerms(terms) then terms.value else []))];
    A2AMessage(agentId, Recipient(s, agentId), s.conversationId,
               if agentId == s.buyerAgentId then "offer" else "counter_offer", content, [], Some(offer), true)
  }

  /** The offer message carries the price and the terms (none given: empty) and expects an answer. */
  lemma OfferMessageFields(s: NegotiationState, agentId: Uuid, price: real, terms: Option<Dict>)
    ensures var m := OfferMessage(s, agentId, price, terms);
      m.fromAgentId == agentId && m.toAgentId == Recipient(s, agentId) && m.conversationId == s.conversationId
      && m.messageType == (if agentId == s.buyerAgentId then "offer" else "counter_offer")
      && m.requiresResponse && m.offer.Some?
      && Lookup(m.offer.value, "price") == Some(JFloat(price))
      && Lookup(m.offer.value, "terms") == Some(JObj(if HasTerms(terms) then terms.value else []))
  {
    LookupFirst(OfferMessage(s, agentId, price, terms).offer.value, "terms", 2);
  }

  /** The "accept" message, which expects no answer. */
  function AcceptMessage(s: NegotiationState, agentId: Uuid): (m: A2AMessage)
    requires !NoOffer(s)
    ensures m.fromAgentId == agentId && m.toAgentId == Recipient(s, agentId) && m.conversationId == s.conversationId
    ensures m.messageType == "accept" && !m.requiresResponse && m.offer.Some?
    ensures Lookup(m.offer.value, "price") == Some(JFloat(s.currentOffer.value))
    ensures Lookup(m.offer.value, "terms") == Some(JObj(s.additionalTerms))
  {
    var price := s.currentOffer.value;
    var offer := [("price", JFloat(price)), ("quantity", JInt(s.itemQuantity)), ("terms", JObj(s.additionalTerms))];
    LookupFirst(offer, "terms", 2);
    A2AMessage(agentId, Recipient(s, agentId), s.conversationId, "accept",
               "Принимаю предложение! Цена: " + Text.RealRepr(price) + " руб.", [], Some(offer), false)
  }

  /** The "reject" message, with the reason appended when there is one. */
  function RejectMessage(s: NegotiationState, agentId: Uuid, reason: string): (m: A2AMessage)
    ensures m.fromAgentId == agentId && m.toAgentId == Recipient(s, agentId) && m.conversationId == s.conversationId
    ensures m.messageType == "reject" && !m.requiresResponse && m.offer.None? && m.payload == []
    ensures reason == [] ==> m.content == "К сожалению, не можем договориться."
  {
    A2AMessage(agentId, Recipient(s, agentId), s.conversationId, "reject",
               "К сожалению, не можем договориться." + (if reason != [] then " Причина: " + reason else ""),
               [], None, false)
  }

  // ---------------------------------------------------------------------
  // auto_negotiate

  /**
   * The prices `auto_negotiate` offers with `rounds` rounds left: the current
   * price, then (unless it is acceptable) `min(price + increment, budget)` and so on.
   */
  function AutoOffers(price: real, increment: real, budget: real, minAcceptable: real, rounds: nat): seq<real>
    decreases rounds
  {
    if rounds == 0 then []
    else if price >= minAcceptable then [price]
    else [price] + AutoOffers(Text.MinReal(price + increment, budget), increment, budget, minAcceptable, rounds - 1)
  }

  /** The buyer opens at 70% of the budget ... */
  function OpeningOffer(budget: real): real
  {
    budget * 0.7
  }

  /** ... and raises by a fifth of the difference to the budget. */
  function Increment(budget: real): real
  {
    (budget - OpeningOffer(budget)) / 5.0
  }

  /** The offers of a fresh negotiation, which has 10 rounds. */
  function BuyerOffers(budget: real, minAcceptable: real): seq<real>
  {
    AutoOffers(OpeningOffer(budget), Increment(budget), budget, minAcceptable, 10)
  }

  /** Every offer lies in [lo, hi]. */
  predicate Within(os: seq<real>, lo: real, hi: real)
  {
    forall i :: 0 <= i < |os| ==> lo <= os[i] <= hi
  }

  /** No offer is lower than an earlier one. */
  predicate NonDecreasing(os: seq<real>)
  {
    forall i, j :: 0 <= i < j < |os| ==> os[i] <= os[j]
  }

  /** Every offer but the last is below the acceptable price. */
  predicate BelowUntilLast(os: seq<real>, minAcceptable: real)
  {
    forall i :: 0 <= i < |os| - 1 ==> os[i] < minAcceptable
  }

  /**
   * At most `rounds` offers, at least one when a round is left; every offer
   * but the last is below the acceptable price, and the last one is
   * acceptable unless all rounds were used.
   */
  lemma {:induction false} AutoOffersStop(price: real, increment: real, budget: real, minAcceptable: real, rounds: nat)
    ensures |AutoOffers(price, increment, budget, minAcceptable, rounds)| <= rounds
    ensures rounds > 0 ==> |AutoOffers(price, increment, budget, minAcceptable, rounds)| >= 1
                           && AutoOffers(price, increment, budget, minAcceptable, rounds)[0] == price
    ensures BelowUntilLast(AutoOffers(price, increment, budget, minAcceptable, rounds), minAcceptable)
    ensures var os := AutoOffers(price, increment, budget, minAcceptable, rounds);
      os != [] && os[|os| - 1] < minAcceptable ==> |os| == rounds
    decreases rounds
  {
    if rounds > 0 && price < minAcceptable {
      var next := Text.MinReal(price + increment, budget);
      AutoOffersStop(next, increment, budget, minAcceptable, rounds - 1);
      var rest := AutoOffers(next, increment, budget, minAcceptable, rounds - 1);
      var os := [price] + rest;
      assert AutoOffers(price, increment, budget, minAcceptable, rounds) == os;
      forall i | 0 <= i < |os| - 1 ensures os[i] < minAcceptable
      {
        if i > 0 {
          assert os[i] == rest[i - 1];
        }
      }
    }
  }

  /** Starting at or under the budget with a non-negative step, the offers rise and never pass the budget. */
  lemma {:induction false} AutoOffersRise(price: real, increment: real, budget: real, minAcceptable: real, rounds: nat)
    requires price <= budget && increment >= 0.0
    ensures Within(AutoOffers(price, increment, budget, minAcceptable, rounds), price, budget)
    ensures NonDecreasing(AutoOffers(price, increment, budget, minAcceptable, rounds))
    decreases rounds
  {
    if rounds > 0 && price < minAcceptable {
      var next := Text.MinReal(price + increment, budget);
      assert price <= next <= budget;
      AutoOffersRise(next, increment, budget, minAcceptable, rounds - 1);
      var rest := AutoOffers(next, increment, budget, minAcceptable, rounds - 1);
      assert Within(rest, next, budget) && NonDecreasing(rest);
      var os := [price] + rest;
      assert AutoOffers(price, increment, budget, minAcceptable, rounds) == os;
      forall i | 0 <= i < |os| ensures price <= os[i] <= budget
      {
        if i > 0 {
          assert os[i] == rest[i - 1];
        }
      }
      forall i, j | 0 <= i < j < |os| ensures os[i] <= os[j]
      {
        assert os[j] == rest[j - 1];
        if i > 0 {
          assert os[i] == rest[i - 1];
        }
      }
    }
  }

  /**
   * For a non-negative budget the buyer opens at 70% of it, never offers
   * more than the budget and never lowers an offer; it makes 1 to 10 offers
   * and stops at the first acceptable one.
   */
  lemma BuyerOffersShape(budget: real, minAcceptable: real)
    requires budget >= 0.0
    ensures 1 <= |BuyerOffers(budget, minAcceptable)| <= 10
    ensures BuyerOffers(budget, minAcceptable)[0] == budget * 0.7
    ensures Within(BuyerOffers(budget, minAcceptable), budget * 0.7, budget)
    ensures NonDecreasing(BuyerOffers(budget, minAcceptable))
    ensures BelowUntilLast(BuyerOffers(budget, minAcceptable), minAcceptable)
    ensures var os := BuyerOffers(budget, minAcceptable);
      os[|os| - 1] < minAcceptable ==> |os| == 10
  {
    assert OpeningOffer(budget) <= budget && Increment(budget) >= 0.0;
    AutoOffersStop(OpeningOffer(budget), Increment(budget), budget, minAcceptable, 10);
    AutoOffersRise(OpeningOffer(budget), Increment(budget), budget, minAcceptable, 10);
  }

  /** The state `auto_negotiate` leaves: the last offer is current, and it is agreed exactly when that offer is acceptable. */
  function AutoOutcome(s: NegotiationState, offers: seq<real>, minAcceptable: real): NegotiationState
    requires offers != []
  {
    var last := offers[|offers| - 1];
    var offered := s.(currentOffer := Some(last), rounds := s.rounds + |offers|);
    if last >= minAcceptable then offered.(agreedPrice := Some(last), status := "agreed") else offered
  }

  /**
   * After `auto_negotiate` the last offer is current and every offer used a
   * round; the negotiation is agreed at that offer exactly when it is acceptable.
   */
  lemma AutoOutcomeFields(s: NegotiationState, offers: seq<real>, minAcceptable: real)
    requires offers != [] && s.status == "negotiating"
    ensures var r := AutoOutcome(s, offers, minAcceptable);
      r.currentOffer == Some(offers[|offers| - 1]) && r.rounds == s.rounds + |offers|
      && (r.status == "agreed" <==> offers[|offers| - 1] >= minAcceptable)
      && (offers[|offers| - 1] >= minAcceptable ==> r.agreedPrice == Some(offers[|offers| - 1]))
      && (offers[|offers| - 1] < minAcceptable ==> r.agreedPrice == s.agreedPrice && r.status == "negotiating")
  {
  }

  /** A minimum above a non-negative budget is never met: ten offers and no agreement. */
  lemma NoDealAboveBudget(budget: real, minAcceptable: real)
    requires 0.0 <= budget < minAcceptable
    ensures |BuyerOffers(budget, minAcceptable)| == 10
    ensures forall i :: 0 <= i < 10 ==> BuyerOffers(budget, minAcceptable)[i] < minAcceptable
  {
    BuyerOffersShape(budget, minAcceptable);
  }

  /** The messages of the offers, in order. */
  function OfferMessages(s: NegotiationState, agentId: Uuid, prices: seq<real>): seq<A2AMessage>
  {
    if prices == [] then []
    else OfferMessages(s, agentId, prices[..|prices| - 1]) + [OfferMessage(s, agentId, prices[|prices| - 1], None)]
  }

  /** One offer message per price, in the order of the prices. */
  lemma {:induction false} OfferMessagesAt(s: NegotiationState, agentId: Uuid, prices: seq<real>)
    ensures |OfferMessages(s, agentId, prices)| == |prices|
    ensures forall i :: 0 <= i < |prices| ==> OfferMessages(s, agentId, prices)[i] == OfferMessage(s, agentId, prices[i], None)
  {
    if prices != [] {
      var init := prices[..|prices| - 1];
      OfferMessagesAt(s, agentId, init);
      forall i | 0 <= i < |prices| - 1
        ensures OfferMessages(s, agentId, prices)[i] == OfferMessage(s, agentId, prices[i], None)
      {
        assert prices[i] == init[i];
      }
    }
  }

  /** The state after the offers `done`, none of them acceptable. */
  function Progress(s0: NegotiationState, done: seq<real>): NegotiationState
  {
    if done == [] then s0 else s0.(currentOffer := Some(done[|done| - 1]), rounds := s0.rounds + |done|)
  }

  lemma OfferedProgress(s0: NegotiationState, done: seq<real>, price: real)
    ensures Offered(Progress(s0, done), price, None) == Progress(s0, done + [price])
  {
  }

  lemma OfferMessagesStep(s0: NegotiationState, s: NegotiationState, agentId: Uuid, done: seq<real>, price: real)
    requires s.buyerAgentId == s0.buyerAgentId && s.sellerAgentId == s0.sellerAgentId
    requires s.conversationId == s0.conversationId && s.itemQuantity == s0.itemQuantity
    ensures OfferMessages(s0, agentId, done + [price]) == OfferMessages(s0, agentId, done) + [OfferMessage(s, agentId, price, None)]
  {
    assert (done + [price])[..|done|] == done;
    assert OfferMessage(s, agentId, price, None) == OfferMessage(s0, agentId, price, None);
  }

  /** Stopping at an acceptable offer is agreeing on it ... */
  lemma AgreedOutcome(s0: NegotiationState, done: seq<real>, price: real, minAcceptable: real)
    requires price >= minAcceptable
    ensures AutoOutcome(s0, done + [price], minAcceptable)
            == Progress(s0, done + [price]).(agreedPrice := Some(price), status := "agreed")
  {
  }

  /** ... and running out of rounds leaves the last offer standing. */
  lemma ExhaustedOutcome(s0: NegotiationState, done: seq<real>, minAcceptable: real)
    requires done != [] && done[|done| - 1] < minAcceptable
    ensures AutoOutcome(s0, done, minAcceptable) == Progress(s0, done)
  {
  }

  lemma UpdateSame<K, V>(m: map<K, V>, k: K)
    requires k in m
    ensures m[k := m[k]] == m
  {
  }

  lemma Overwrite<K, V>(m: map<K, V>, k: K, a: V, b: V)
    ensures m[k := a][k := b] == m[k := b]
  {
  }

  lemma Concat3<T>(a: seq<T>, b: seq<T>, c: seq<T>)
    ensures (a + b) + c == a + (b + c)
  {
  }

  /** The loop of `auto_negotiate` goes on with the next price after an unacceptable one ... */
  lemma AutoStep(done: seq<real>, price: real, increment: real, budget: real, minAcceptable: real, offers: seq<real>)
    requires |done| < 10 && price < minAcceptable
    requires done + AutoOffers(price, increment, budget, minAcceptable, 10 - |done|) == offers
    ensures (done + [price]) + AutoOffers(Text.MinReal(price + increment, budget), increment, budget, minAcceptable,
                                          10 - |done + [price]|) == offers
  {
    Concat3(done, [price], AutoOffers(Text.MinReal(price + increment, budget), increment, budget, minAcceptable, 10 - |done| - 1));
  }

  /** ... and stops at an acceptable one ... */
  lemma AutoStop(done: seq<real>, price: real, increment: real, budget: real, minAcceptable: real, offers: seq<real>)
    requires |done| < 10 && price >= minAcceptable
    requires done + AutoOffers(price, increment, budget, minAcceptable, 10 - |done|) == offers
    ensures done + [price] == offers
  {
  }

  /** ... or when no round is left. */
  lemma AutoEnd(done: seq<real>, price: real, increment: real, budget: real, minAcceptable: real, offers: seq<real>)
    requires done + AutoOffers(price, increment, budget, minAcceptable, 0) == offers
    ensures done == offers
  {
    assert done + [] == done;
  }

  /** The offers `done` made so far, followed by those still to come from `price` on, are the buyer's offers. */
  predicate OnTrack(done: seq<real>, price: real, budget: real, minAcceptable: real)
    requires |done| <= 10
  {
    done + AutoOffers(price, Increment(budget), budget, minAcceptable, 10 - |done|) == BuyerOffers(budget, minAcceptable)
  }

  /** The loop of `auto_negotiate` left the rounds without agreeing: every offer has been made. */
  lemma RoundsUsedUp(s0: NegotiationState, done: seq<real>, price: real, budget: real, minAcceptable: real)
    requires |done| <= 10
    requires done != [] ==> done[|done| - 1] < minAcceptable
    requires OnTrack(done, price, budget, minAcceptable)
    requires !(Progress(s0, done).rounds < Progress(s0, done).maxRounds && Progress(s0, done).status == "negotiating")
    requires s0.rounds == 0 && s0.maxRounds == 10 && s0.status == "negotiating"
    ensures done == BuyerOffers(budget, minAcceptable) && done != []
    ensures AutoOutcome(s0, done, minAcceptable) == Progress(s0, done)
  {
    assert |done| == 10;
    AutoEnd(done, price, Increment(budget), budget, minAcceptable, BuyerOffers(budget, minAcceptable));
    ExhaustedOutcome(s0, done, minAcceptable);
  }

  // ---------------------------------------------------------------------
  // The buyer's response handler

  datatype BuyerAction = Ignore | AcceptIt | CounterWith(price: real) | RejectIt

  /** `message.offer.get("price", 0) if message.offer else 0`. */
  function OfferPrice(m: A2AMessage): Json
  {
    if m.offer.Some? && m.offer.value != [] then Get(m.offer.value, "price", JInt(0)) else JInt(0)
  }

  /** A value compared with a float: ints, floats and bools compare as numbers; anything else raises TypeError. */
  function AsNumber(j: Json): (r: Option<real>)
    ensures r.Some? <==> j.JInt? || j.JFloat? || j.JBool?
  {
    match j
    case JInt(i) => Some(i as real)
    case JFloat(v) => Some(v)
    case JBool(b) => Some(if b then 1.0 else 0.0)
    case _ => None
  }

  /** The price up to which the buyer accepts: the budget less up to 30% for price sensitivity. */
  function Threshold(budget: real, sensitivity: real): real
  {
    budget * (1.0 - sensitivity * 0.3)
  }

  /**
   * What the buyer handler does with a message: only offers on a known
   * negotiation with a budget are answered — accepted up to the threshold,
   * countered up to the budget, rejected above it.
   */
  function Decide(m: A2AMessage, state: Option<NegotiationState>, sensitivity: real): (r: Result<BuyerAction>)
    ensures m.messageType != "offer" ==> r == Ok(Ignore)
    ensures state.None? || state.value.buyerBudget.None? || state.value.buyerBudget.value == 0.0 ==> r == Ok(Ignore)
    ensures r.Err? <==> m.messageType == "offer" && state.Some? && state.value.buyerBudget.Some?
                        && state.value.buyerBudget.value != 0.0 && AsNumber(OfferPrice(m)).None?
    ensures r.Err? ==> r.error == TypeError
  {
    if m.messageType != "offer" then Ok(Ignore)
    else if state.None? || state.value.buyerBudget.None? || state.value.buyerBudget.value == 0.0 then Ok(Ignore)
    else
      var budget := state.value.buyerBudget.value;
      var price := AsNumber(OfferPrice(m));
      if price.None? then Err(TypeError)
      else if price.value <= Threshold(budget, sensitivity) then Ok(AcceptIt)
      else if price.value <= budget then Ok(CounterWith((price.value + budget * 0.8) / 2.0))
      else Ok(RejectIt)
  }

  /**
   * For a positive budget and a sensitivity in [0, 1]: an offer is accepted
   * exactly up to the threshold, which is at most the budget; a counter is
   * made exactly for prices between the threshold and the budget and never
   * exceeds 90% of the budget; anything above the budget is rejected.
   */
  lemma BuyerStaysInBudget(m: A2AMessage, s: NegotiationState, sensitivity: real)
    requires m.messageType == "offer" && s.buyerBudget.Some? && s.buyerBudget.value > 0.0
    requires 0.0 <= sensitivity <= 1.0 && AsNumber(OfferPrice(m)).Some?
    ensures var b := s.buyerBudget.value;
      var p := AsNumber(OfferPrice(m)).value;
      var r := Decide(m, Some(s), sensitivity);
      r.Ok?
      && (r.value == AcceptIt <==> p <= Threshold(b, sensitivity))
      && Threshold(b, sensitivity) <= b
      && (r.value.CounterWith? <==> Threshold(b, sensitivity) < p <= b)
      && (r.value.CounterWith? ==> r.value.price <= 0.9 * b)
      && (r.value == RejectIt <==> p > b)
  {
    var b := s.buyerBudget.value;
    assert Threshold(b, sensitivity) == b - b * sensitivity * 0.3;
    assert b * sensitivity * 0.3 >= 0.0;
  }

  /**
   * How a reply the handler makes ends: sent and returned when the producer
   * is connected, a RuntimeError with nothing sent otherwise.
   */
  predicate Answered(connected: bool, r: Result<Option<A2AMessage>>, sent: seq<A2AMessage>, before: seq<A2AMessage>,
                     reply: A2AMessage)
  {
    (connected ==> r == Ok(Some(reply)) && sent == before + [reply])
    && (!connected ==> r == Err(RuntimeError("A2A Protocol not connected")) && sent == before)
  }

  // ---------------------------------------------------------------------
  // The protocol

  class A2AProtocol {
    /** Whether `connect()` has created the producer; `send_message` raises otherwise. */
    var connected: bool
    var negotiations: map<Uuid, NegotiationState>
    /** Every message handed to the producer, in order. */
    var sent: seq<A2AMessage>

    constructor (connected: bool)
      ensures this.connected == connected && negotiations == map[] && sent == []
    {
      this.connected := connected;
      negotiations := map[];
      sent := [];
    }

    /** `send_message`. */
    method SendMessage(m: A2AMessage) returns (err: Option<PyError>)
      modifies this
      ensures connected == old(connected) && negotiations == old(negotiations)
      ensures connected ==> err.None? && sent == old(sent) + [m]
      ensures !connected ==> err == Some(RuntimeError("A2A Protocol not connected")) && sent == old(sent)
    {
      if !connected {
        return Some(RuntimeError("A2A Protocol not connected"));
      }
      sent := sent + [m];
      return None;
    }

    /** `get_negotiation_state`. */
    function GetNegotiationState(conversationId: Uuid): (r: Option<NegotiationState>)
      reads this
      ensures r.Some? <==> conversationId in negotiations
      ensures r.Some? ==> r.value == negotiations[conversationId]
    {
      if conversationId in negotiations then Some(negotiations[conversationId]) else None
    }

    /**
     * `start_negotiation` under the fresh id `conversationId`: the new state is
     * registered before the request is sent, so it stays registered when sending fails.
     */
    method StartNegotiation(buyerId: Uuid, sellerId: Uuid, item: string, budget: real, quantity: int,
                            deadline: Option<Clock.Instant>, conversationId: Uuid, iso: Clock.Instant -> string)
      returns (r: Result<NegotiationState>)
      modifies this
      ensures connected == old(connected)
      ensures negotiations == old(negotiations)[conversationId := NewNegotiation(conversationId, buyerId, sellerId, item, quantity, budget, deadline)]
      ensures connected ==> r == Ok(negotiations[conversationId]) && sent == old(sent) + [RequestMessage(negotiations[conversationId], iso)]
      ensures !connected ==> r == Err(RuntimeError("A2A Protocol not connected")) && sent == old(sent)
    {
      var state := NewNegotiation(conversationId, buyerId, sellerId, item, quantity, budget, deadline);
      negotiations := negotiations[conversationId := state];
      var err := SendMessage(RequestMessage(state, iso));
      if err.Some? {
        return Err(err.value);
      }
      return Ok(state);
    }

    /** `make_offer`: an unknown conversation raises ValueError and changes nothing. */
    method MakeOffer(agentId: Uuid, conversationId: Uuid, price: real, terms: Option<Dict>) returns (r: Result<A2AMessage>)
      modifies this
      ensures connected == old(connected)
      ensures conversationId !in old(negotiations) ==>
                r == Err(NotFound(conversationId)) && negotiations == old(negotiations) && sent == old(sent)
      ensures conversationId in old(negotiations) ==>
                var s := old(negotiations)[conversationId];
                negotiations == old(negotiations)[conversationId := Offered(s, price, terms)]
                && (connected ==> r == Ok(OfferMessage(s, agentId, price, terms)) && sent == old(sent) + [r.value])
                && (!connected ==> r == Err(RuntimeError("A2A Protocol not connected")) && sent == old(sent))
    {
      if conversationId !in negotiations {
        return Err(NotFound(conversationId));
      }
      var state := negotiations[conversationId];
      negotiations := negotiations[conversationId := Offered(state, price, terms)];
      var message := OfferMessage(state, agentId, price, terms);
      var err := SendMessage(message);
      if err.Some? {
        return Err(err.value);
      }
      return Ok(message);
    }

    /** `accept_offer`: fails without a current offer; otherwise agreed and an "accept" is sent. */
    method AcceptOffer(agentId: Uuid, conversationId: Uuid) returns (r: Result<A2AMessage>)
      modifies this
      ensures connected == old(connected)
      ensures conversationId !in old(negotiations) ==>
                r == Err(NotFound(conversationId)) && negotiations == old(negotiations) && sent == old(sent)
      ensures conversationId in old(negotiations) && NoOffer(old(negotiations)[conversationId]) ==>
                r == Err(ValueError("No offer to accept")) && negotiations == old(negotiations) && sent == old(sent)
      ensures conversationId in old(negotiations) && !NoOffer(old(negotiations)[conversationId]) ==>
                var s := old(negotiations)[conversationId];
                negotiations == old(negotiations)[conversationId := Accepted(s).value]
                && (connected ==> r == Ok(AcceptMessage(s, agentId)) && sent == old(sent) + [r.value])
                && (!connected ==> r == Err(RuntimeError("A2A Protocol not connected")) && sent == old(sent))
    {
      if conversationId !in negotiations {
        return Err(NotFound(conversationId));
      }
      var state := negotiations[conversationId];
      var accepted := Accepted(state);
      if accepted.Err? {
        return Err(accepted.error);
      }
      negotiations := negotiations[conversationId := accepted.value];
      var message := AcceptMessage(state, agentId);
      var err := SendMessage(message);
      if err.Some? {
        return Err(err.value);
      }
      return Ok(message);
    }

    /** `reject_offer`: the negotiation fails and a "reject" is sent. */
    method RejectOffer(agentId: Uuid, conversationId: Uuid, reason: string) returns (r: Result<A2AMessage>)
      modifies this
      ensures connected == old(connected)
      ensures conversationId !in old(negotiations) ==>
                r == Err(NotFound(conversationId)) && negotiations == old(negotiations) && sent == old(sent)
      ensures conversationId in old(negotiations) ==>
                var s := old(negotiations)[conversationId];
                negotiations == old(negotiations)[conversationId := Rejected(s)]
                && (connected ==> r == Ok(RejectMessage(s, agentId, reason)) && sent == old(sent) + [r.value])
                && (!connected ==> r == Err(RuntimeError("A2A Protocol not connected")) && sent == old(sent))
    {
      if conversationId !in negotiations {
        return Err(NotFound(conversationId));
      }
      var state := negotiations[conversationId];
      negotiations := negotiations[conversationId := Rejected(state)];
      var message := RejectMessage(state, agentId, reason);
      var err := SendMessage(message);
      if err.Some? {
        return Err(err.value);
      }
      return Ok(message);
    }

    /**
     * `auto_negotiate`: opens the negotiation, then offers the prices of
     * `BuyerOffers` one round at a time until one is acceptable (agreed) or
     * the ten rounds are used up. The sleep between rounds is not modelled.
     */
    method AutoNegotiate(buyerId: Uuid, sellerId: Uuid, item: string, budget: real, minAcceptable: real,
                         conversationId: Uuid, iso: Clock.Instant -> string) returns (r: Result<NegotiationState>)
      modifies this
      ensures connected == old(connected)
      ensures !connected ==> r == Err(RuntimeError("A2A Protocol not connected")) && sent == old(sent)
                             && negotiations == old(negotiations)[conversationId := NewNegotiation(conversationId, buyerId, sellerId, item, 1, budget, None)]
      ensures connected ==>
                var s0 := NewNegotiation(conversationId, buyerId, sellerId, item, 1, budget, None);
                var offers := BuyerOffers(budget, minAcceptable);
                offers != []
                && r == Ok(AutoOutcome(s0, offers, minAcceptable))
                && negotiations == old(negotiations)[conversationId := r.value]
                && sent == old(sent) + [RequestMessage(s0, iso)] + OfferMessages(s0, buyerId, offers)
    {
      var started := StartNegotiation(buyerId, sellerId, item, budget, 1, None, conversationId, iso);
      if started.Err? {
        return Err(started.error);
      }
      AutoOffersStop(OpeningOffer(budget), Increment(budget), budget, minAcceptable, 10);
      var final := OfferRounds(buyerId, conversationId, budget, minAcceptable);
      Overwrite(old(negotiations), conversationId, started.value, final);
      return Ok(final);
    }

    /**
     * The loop of `auto_negotiate` on the negotiation it has just opened:
     * the buyer offers the prices of `BuyerOffers` one round at a time until
     * one is acceptable (agreed) or the rounds are used up. The sleep between
     * rounds is not modelled.
     */
    method OfferRounds(buyerId: Uuid, conversationId: Uuid, budget: real, minAcceptable: real)
      returns (final: NegotiationState)
      requires connected && conversationId in negotiations
      requires negotiations[conversationId].rounds == 0 && negotiations[conversationId].maxRounds == 10
      requires negotiations[conversationId].status == "negotiating"
      modifies this
      ensures connected
      ensures final == AutoOutcome(old(negotiations)[conversationId], BuyerOffers(budget, minAcceptable), minAcceptable)
      ensures negotiations == old(negotiations)[conversationId := final]
      ensures sent == old(sent) + OfferMessages(old(negotiations)[conversationId], buyerId, BuyerOffers(budget, minAcceptable))
    {
      ghost var s0 := negotiations[conversationId];
      var current := OpeningOffer(budget);
      ghost var done: seq<real> := [];
      UpdateSame(old(negotiations), conversationId);
      while negotiations[conversationId].rounds < negotiations[conversationId].maxRounds
            && negotiations[conversationId].status == "negotiating"
        invariant connected && |done| <= 10
        invariant negotiations == old(negotiations)[conversationId := Progress(s0, done)]
        invariant OnTrack(done, current, budget, minAcceptable)
        invariant done != [] ==> done[|done| - 1] < minAcceptable
        invariant sent == old(sent) + OfferMessages(s0, buyerId, done)
        decreases 10 - |done|
      {
        var agreed, next := OfferRound(buyerId, conversationId, budget, minAcceptable, current, s0, done, old(negotiations), old(sent));
        if agreed {
          return negotiations[conversationId];
        }
        done := done + [current];
        current := next;
      }
      RoundsUsedUp(s0, done, current, budget, minAcceptable);
      final := negotiations[conversationId];
    }

    /**
     * One round of `auto_negotiate` after the offers `done`: the buyer offers
     * `price`; an acceptable offer is agreed on the spot, otherwise the next
     * price is the offer raised by the increment, capped at the budget.
     */
    method OfferRound(buyerId: Uuid, conversationId: Uuid, budget: real, minAcceptable: real, price: real,
                      ghost s0: NegotiationState, ghost done: seq<real>,
                      ghost others: map<Uuid, NegotiationState>, ghost log: seq<A2AMessage>)
      returns (agreed: bool, next: real)
      requires connected && |done| < 10
      requires negotiations == others[conversationId := Progress(s0, done)]
      requires OnTrack(done, price, budget, minAcceptable)
      requires sent == log + OfferMessages(s0, buyerId, done)
      modifies this
      ensures connected && sent == log + OfferMessages(s0, buyerId, done + [price])
      ensures agreed ==> done + [price] == BuyerOffers(budget, minAcceptable)
                         && negotiations == others[conversationId := AutoOutcome(s0, done + [price], minAcceptable)]
      ensures !agreed ==> price < minAcceptable && next == Text.MinReal(price + Increment(budget), budget)
                          && negotiations == others[conversationId := Progress(s0, done + [price])]
                          && OnTrack(done + [price], next, budget, minAcceptable)
    {
      BuyerRound(buyerId, conversationId, price, s0, done, others, log);
      agreed, next := SettleRound(conversationId, budget, minAcceptable, price, s0, done, others);
    }

    /**
     * The rest of a round of `auto_negotiate` once the buyer has offered
     * `price`: an acceptable offer is agreed on the spot, otherwise the next
     * price is the offer raised by the increment, capped at the budget.
     */
    method SettleRound(conversationId: Uuid, budget: real, minAcceptable: real, price: real,
                       ghost s0: NegotiationState, ghost done: seq<real>, ghost others: map<Uuid, NegotiationState>)
      returns (agreed: bool, next: real)
      requires |done| < 10 && OnTrack(done, price, budget, minAcceptable)
      requires negotiations == others[conversationId := Progress(s0, done + [price])]
      modifies this
      ensures connected == old(connected) && sent == old(sent)
      ensures agreed ==> done + [price] == BuyerOffers(budget, minAcceptable)
                         && negotiations == others[conversationId := AutoOutcome(s0, done + [price], minAcceptable)]
      ensures !agreed ==> price < minAcceptable && next == Text.MinReal(price + Increment(budget), budget)
                          && negotiations == others[conversationId := Progress(s0, done + [price])]
                          && OnTrack(done + [price], next, budget, minAcceptable)
    {
      if price >= minAcceptable {
        negotiations := negotiations[conversationId := negotiations[conversationId].(agreedPrice := Some(price), status := "agreed")];
        Overwrite(others, conversationId, Progress(s0, done + [price]), negotiations[conversationId]);
        AutoStop(done, price, Increment(budget), budget, minAcceptable, BuyerOffers(budget, minAcceptable));
        AgreedOutcome(s0, done, price, minAcceptable);
        return true, price;
      }
      AutoStep(done, price, Increment(budget), budget, minAcceptable, BuyerOffers(budget, minAcceptable));
      return false, Text.MinReal(price + Increment(budget), budget);
    }

    /** The offer of one round: the buyer's offer at `price` on the negotiation after the offers `done`. */
    method BuyerRound(buyerId: Uuid, conversationId: Uuid, price: real, ghost s0: NegotiationState, ghost done: seq<real>,
                      ghost others: map<Uuid, NegotiationState>, ghost log: seq<A2AMessage>)
      requires connected && negotiations == others[conversationId := Progress(s0, done)]
      requires sent == log + OfferMessages(s0, buyerId, done)
      modifies this
      ensures connected && negotiations == others[conversationId := Progress(s0, done + [price])]
      ensures sent == log + OfferMessages(s0, buyerId, done + [price])
    {
      var offer := MakeOffer(buyerId, conversationId, price, None);
      Overwrite(others, conversationId, Progress(s0, done), negotiations[conversationId]);
      OfferedProgress(s0, done, price);
      OfferMessagesStep(s0, Progress(s0, done), buyerId, done, price);
      Concat3(log, OfferMessages(s0, buyerId, done), [OfferMessage(Progress(s0, done), buyerId, price, None)]);
    }

    /**
     * The buyer's handler from `create_buyer_response_handler`, for the agent
     * `agentId` with the given price sensitivity.
     */
    method HandleBuyerMessage(agentId: Uuid, sensitivity: real, m: A2AMessage) returns (r: Result<Option<A2AMessage>>)
      modifies this
      ensures connected == old(connected)
      ensures var d := Decide(m, old(GetNegotiationState(m.conversationId)), sensitivity);
        (d.Err? ==> r == Err(TypeError) && negotiations == old(negotiations) && sent == old(sent))
        && (d == Ok(Ignore) ==> r == Ok(None) && negotiations == old(negotiations) && sent == old(sent))
        && (d.Ok? && d.value != Ignore ==> m.conversationId in old(negotiations))
    ensures var d := Decide(m, old(GetNegotiationState(m.conversationId)), sensitivity);
      d == Ok(AcceptIt) ==>
        var s := old(negotiations)[m.conversationId];
        (!NoOffer(s) ==> negotiations == old(negotiations)[m.conversationId := Accepted(s).value]
                         && Answered(connected, r, sent, old(sent), AcceptMessage(s, agentId)))
        && (NoOffer(s) ==> r == Err(ValueError("No offer to accept")) && negotiations == old(negotiations)
                           && sent == old(sent))
    ensures var d := Decide(m, old(GetNegotiationState(m.conversationId)), sensitivity);
      d.Ok? && d.value.CounterWith? ==>
        var s := old(negotiations)[m.conversationId];
        negotiations == old(negotiations)[m.conversationId := Offered(s, d.value.price, None)]
        && Answered(connected, r, sent, old(sent), OfferMessage(s, agentId, d.value.price, None))
    ensures var d := Decide(m, old(GetNegotiationState(m.conversationId)), sensitivity);
      d == Ok(RejectIt) ==>
        var s := old(negotiations)[m.conversationId];
        negotiations == old(negotiations)[m.conversationId := Rejected(s)]
        && Answered(connected, r, sent, old(sent), RejectMessage(s, agentId, "Превышает бюджет"))
    {
      var decision := Decide(m, GetNegotiationState(m.conversationId), sensitivity);
      if decision.Err? {
        return Err(decision.error);
      }
      match decision.value
      case Ignore =>
        return Ok(None);
      case AcceptIt =>
        var a := AcceptOffer(agentId, m.conversationId);
        r := if a.Ok? then Ok(Some(a.value)) else Err(a.error);
      case CounterWith(price) =>
        var o := MakeOffer(agentId, m.conversationId, price, None);
        r := if o.Ok? then Ok(Some(o.value)) else Err(o.error);
      case RejectIt =>
        var j := RejectOffer(agentId, m.conversationId, "Превышает бюджет");
        r := if j.Ok? then Ok(Some(j.value)) else Err(j.error);
    }
  }
}
