// The agent records of app/agent/models.py: personality traits, the agent
// (digital twin), conversation messages, A2A messages, the negotiation state
// and the execute-task request, with their declared defaults and field bounds.
// `AgentTask`, whose fields the executor updates in place, is a class.

module AgentModels {
  import opened Wrappers
  import opened Json
  import Clock

  type Uuid = string

  datatype AgentRole = Buyer | Seller | Assistant | Negotiator | Researcher

  function AgentRoleValue(r: AgentRole): string
  {
    match r
    case Buyer => "buyer"
    case Seller => "seller"
    case Assistant => "assistant"
    case Negotiator => "negotiator"
    case Researcher => "researcher"
  }

  datatype TaskStatus = Pending | Running | Waiting | Completed | Failed | Cancelled

  datatype MessageRole = System | User | AssistantRole | Tool

  // ---------------------------------------------------------------------
  // PersonalityTraits

  datatype PersonalityTraits = PersonalityTraits(
    formality: real, verbosity: real, aggressiveness: real, riskTolerance: real,
    priceSensitivity: real, speedPriority: real, customTraits: seq<(string, string)>)

  predicate InUnit(x: real)
  {
    0.0 <= x <= 1.0
  }

  /** Every score is constrained to [0, 1]. */
  predicate ValidTraits(t: PersonalityTraits)
  {
    InUnit(t.formality) && InUnit(t.verbosity) && InUnit(t.aggressiveness)
    && InUnit(t.riskTolerance) && InUnit(t.priceSensitivity) && InUnit(t.speedPriority)
  }

  /** `PersonalityTraits()`: every score 0.5, no custom traits. */
  function DefaultTraits(): (t: PersonalityTraits)
    ensures ValidTraits(t) && t.customTraits == []
    ensures t.formality == t.verbosity == t.aggressiveness == t.riskTolerance
            == t.priceSensitivity == t.speedPriority == 0.5
  {
    PersonalityTraits(0.5, 0.5, 0.5, 0.5, 0.5, 0.5, [])
  }

  /** `PersonalityTraits(...)` with some scores given: each given score must lie in [0, 1]. */
  function NewTraits(formality: Option<real>, verbosity: Option<real>, aggressiveness: Option<real>,
                     riskTolerance: Option<real>, priceSensitivity: Option<real>,
                     speedPriority: Option<real>): (r: Result<PersonalityTraits>)
    ensures r.Ok? <==> (formality.None? || InUnit(formality.value)) && (verbosity.None? || InUnit(verbosity.value))
                       && (aggressiveness.None? || InUnit(aggressiveness.value))
                       && (riskTolerance.None? || InUnit(riskTolerance.value))
                       && (priceSensitivity.None? || InUnit(priceSensitivity.value))
                       && (speedPriority.None? || InUnit(speedPriority.value))
    ensures r.Ok? ==> ValidTraits(r.value) && r.value.customTraits == []
                      && r.value.formality == formality.GetOr(0.5)
                      && r.value.verbosity == verbosity.GetOr(0.5)
                      && r.value.aggressiveness == aggressiveness.GetOr(0.5)
                      && r.value.riskTolerance == riskTolerance.GetOr(0.5)
                      && r.value.priceSensitivity == priceSensitivity.GetOr(0.5)
                      && r.value.speedPriority == speedPriority.GetOr(0.5)
    ensures r.Err? ==> r.error == ValidationError
  {
    var t := PersonalityTraits(formality.GetOr(0.5), verbosity.GetOr(0.5), aggressiveness.GetOr(0.5),
                               riskTolerance.GetOr(0.5), priceSensitivity.GetOr(0.5), speedPriority.GetOr(0.5), []);
    if ValidTraits(t) then Ok(t) else Err(ValidationError)
  }

  /** `personality.model_dump()`: the fields in declaration order, the custom traits as a dict. */
  function TraitsDump(t: PersonalityTraits): (d: Dict)
    ensures |d| == 7
    ensures d[0] == ("formality", JFloat(t.formality)) && d[1] == ("verbosity", JFloat(t.verbosity))
    ensures d[2] == ("aggressiveness", JFloat(t.aggressiveness)) && d[3] == ("risk_tolerance", JFloat(t.riskTolerance))
    ensures d[4] == ("price_sensitivity", JFloat(t.priceSensitivity))
    ensures d[5] == ("speed_priority", JFloat(t.speedPriority))
    ensures d[6] == ("custom_traits", JObj(StringDict(t.customTraits)))
  {
    [("formality", JFloat(t.formality)), ("verbosity", JFloat(t.verbosity)),
     ("aggressiveness", JFloat(t.aggressiveness)), ("risk_tolerance", JFloat(t.riskTolerance)),
     ("price_sensitivity", JFloat(t.priceSensitivity)), ("speed_priority", JFloat(t.speedPriority)),
     ("custom_traits", JObj(StringDict(t.customTraits)))]
  }

  function StringDict(kvs: seq<(string, string)>): (d: Dict)
    ensures |d| == |kvs| && forall i :: 0 <= i < |kvs| ==> d[i] == (kvs[i].0, JStr(kvs[i].1))
  {
    seq(|kvs|, i requires 0 <= i < |kvs| => (kvs[i].0, JStr(kvs[i].1)))
  }

  // ---------------------------------------------------------------------
  // UserAgent

  datatype UserAgent = UserAgent(
    id: Uuid, userId: Uuid, name: string, role: AgentRole, personality: PersonalityTraits,
    systemPrompt: string, contextSummary: string, preferredBrands: seq<string>,
    preferredStyles: seq<string>, isActive: bool, fineTuned: bool, trainingDataCount: int)

  /** `UserAgent(user_id=..., name=...)`: an active assistant with default traits and nothing learned yet. */
  function NewUserAgent(id: Uuid, userId: Uuid, name: string): (a: UserAgent)
    ensures a.id == id && a.userId == userId && a.name == name
    ensures a.role == Assistant && a.isActive && !a.fineTuned && a.trainingDataCount == 0
    ensures a.personality == DefaultTraits() && ValidTraits(a.personality)
    ensures a.systemPrompt == a.contextSummary == [] && a.preferredBrands == a.preferredStyles == []
  {
    UserAgent(id, userId, name, Assistant, DefaultTraits(), "", "", [], [], true, false, 0)
  }

  // ---------------------------------------------------------------------
  // Messages

  /** `AgentMessage`; the id and timestamp are not modelled. */
  datatype AgentMessage = AgentMessage(
    role: MessageRole, content: string, toolName: Option<string>, toolArgs: Option<Dict>,
    toolResult: Option<Json>, tokens: int)

  /** `AgentMessage(role=..., content=...)`: no tool information and no tokens. */
  function PlainMessage(role: MessageRole, content: string): (m: AgentMessage)
    ensures m.role == role && m.content == content
    ensures m.toolName.None? && m.toolArgs.None? && m.toolResult.None? && m.tokens == 0
  {
    AgentMessage(role, content, None, None, None, 0)
  }

  /** `A2AMessage`; the id and timestamp are not modelled. */
  datatype A2AMessage = A2AMessage(
    fromAgentId: Uuid, toAgentId: Uuid, conversationId: Uuid, messageType: string,
    content: string, payload: Dict, offer: Option<Dict>, requiresResponse: bool)

  // ---------------------------------------------------------------------
  // NegotiationState

  datatype NegotiationState = NegotiationState(
    conversationId: Uuid, buyerAgentId: Uuid, sellerAgentId: Uuid, itemDescription: string,
    itemQuantity: int, buyerBudget: Option<real>, sellerAskingPrice: Option<real>,
    currentOffer: Option<real>, deliveryDeadline: Option<Clock.Instant>, additionalTerms: Dict,
    rounds: int, maxRounds: int, status: string, agreedPrice: Option<real>, agreedTerms: Option<Dict>)

  /** `NegotiationState(...)` as `start_negotiation` builds it: 0 of 10 rounds, negotiating, no offer yet. */
  function NewNegotiation(conversationId: Uuid, buyer: Uuid, seller: Uuid, item: string, quantity: int,
                          budget: real, deadline: Option<Clock.Instant>): (s: NegotiationState)
    ensures s.conversationId == conversationId && s.buyerAgentId == buyer && s.sellerAgentId == seller
    ensures s.itemDescription == item && s.itemQuantity == quantity && s.deliveryDeadline == deadline
    ensures s.buyerBudget == Some(budget) && s.sellerAskingPrice.None? && s.currentOffer.None?
    ensures s.rounds == 0 && s.maxRounds == 10 && s.status == "negotiating" && s.additionalTerms == []
    ensures s.agreedPrice.None? && s.agreedTerms.None?
  {
    NegotiationState(conversationId, buyer, seller, item, quantity, Some(budget), None, None, deadline,
                     [], 0, 10, "negotiating", None, None)
  }

  // ---------------------------------------------------------------------
  // AgentTask

  /** `AgentTask`: the executor updates status, counters, messages and results in place. */
  class AgentTask {
    const agentId: Uuid
    const userId: Uuid
    const instruction: string
    const context: Option<string>
    var status: TaskStatus
    var iterations: int
    var maxIterations: int
    var result: Option<string>
    var error: Option<string>
    var messages: seq<AgentMessage>
    var startedAt: Option<Clock.Instant>
    var completedAt: Option<Clock.Instant>
    var totalTokens: int

    /** The defaults: pending, 0 of 10 iterations, no messages, no tokens. */
    constructor (agentId: Uuid, userId: Uuid, instruction: string, context: Option<string>)
      ensures this.agentId == agentId && this.userId == userId
      ensures this.instruction == instruction && this.context == context
      ensures status == Pending && iterations == 0 && maxIterations == 10 && totalTokens == 0
      ensures result.None? && error.None? && messages == [] && startedAt.None? && completedAt.None?
    {
      this.agentId := agentId;
      this.userId := userId;
      this.instruction := instruction;
      this.context := context;
      status := Pending;
      iterations := 0;
      maxIterations := 10;
      result := None;
      error := None;
      messages := [];
      startedAt := None;
      completedAt := None;
      totalTokens := 0;
    }
  }

  // ---------------------------------------------------------------------
  // API requests

  datatype ExecuteTaskRequest = ExecuteTaskRequest(
    userId: Uuid, instruction: string, context: Option<string>, maxIterations: int, timeoutSeconds: int)

  /** `ExecuteTaskRequest(...)`: `max_iterations` in 1..50 (default 10), `timeout_seconds` in 30..1800 (default 300). */
  function NewExecuteTaskRequest(userId: Uuid, instruction: string, context: Option<string>,
                                 maxIterations: Option<int>, timeoutSeconds: Option<int>): (r: Result<ExecuteTaskRequest>)
    ensures r.Ok? <==> (maxIterations.None? || 1 <= maxIterations.value <= 50)
                       && (timeoutSeconds.None? || 30 <= timeoutSeconds.value <= 1800)
    ensures r.Ok? ==> 1 <= r.value.maxIterations <= 50 && 30 <= r.value.timeoutSeconds <= 1800
                      && r.value.maxIterations == maxIterations.GetOr(10)
                      && r.value.timeoutSeconds == timeoutSeconds.GetOr(300)
    ensures r.Err? ==> r.error == ValidationError
  {
    var m := maxIterations.GetOr(10);
    var t := timeoutSeconds.GetOr(300);
    if 1 <= m <= 50 && 30 <= t <= 1800 then Ok(ExecuteTaskRequest(userId, instruction, context, m, t))
    else Err(ValidationError)
  }
}
