// The Life-Stream event and pattern models (app/life_stream/models.py):
// enumerations with their string values, the six event classes with the
// field constraints pydantic enforces on construction, and the pattern and
// memory-query models.

module LifeStreamModels {
  import opened Wrappers
  import opened Json
  import Clock

  type Uuid = string

  // ---------------------------------------------------------------------
  // Enumerations

  datatype EventType = Geo | Purchase | Transaction | Social | Health | Activity | Communication | Custom

  const AllEventTypes: seq<EventType> :=
    [Geo, Purchase, Transaction, Social, Health, Activity, Communication, Custom]

  /** `EventType.X.value`. */
  function EventTypeValue(t: EventType): string
  {
    match t
    case Geo => "geo"
    case Purchase => "purchase"
    case Transaction => "transaction"
    case Social => "social"
    case Health => "health"
    case Activity => "activity"
    case Communication => "communication"
    case Custom => "custom"
  }

  /** `EventType(s)`: the member whose value is `s`; Python raises ValueError otherwise. */
  function ParseEventType(s: string): (r: Option<EventType>)
    ensures r.Some? ==> EventTypeValue(r.value) == s
    ensures r.None? ==> forall t :: EventTypeValue(t) != s
  {
    match s
    case "geo" => Some(Geo)
    case "purchase" => Some(Purchase)
    case "transaction" => Some(Transaction)
    case "social" => Some(Social)
    case "health" => Some(Health)
    case "activity" => Some(Activity)
    case "communication" => Some(Communication)
    case "custom" => Some(Custom)
    case _ => None
  }

  /** Parsing a member's value gives the member back. */
  lemma ParseEventTypeValue(t: EventType)
    ensures ParseEventType(EventTypeValue(t)) == Some(t)
  {
  }

  datatype EventSource = Api | Mobile | Wearable | Import | Webhook

  function EventSourceValue(s: EventSource): string
  {
    match s
    case Api => "api"
    case Mobile => "mobile"
    case Wearable => "wearable"
    case Import => "import"
    case Webhook => "webhook"
  }

  datatype PatternType = LocationCluster | Routine | Habit | Relationship | Anomaly

  function PatternTypeValue(p: PatternType): string
  {
    match p
    case LocationCluster => "location_cluster"
    case Routine => "routine"
    case Habit => "habit"
    case Relationship => "relationship"
    case Anomaly => "anomaly"
  }

  // ---------------------------------------------------------------------
  // Events

  /** The `BaseEvent` fields every event carries. */
  datatype BaseFields = BaseFields(eventType: EventType, ts: Clock.Instant, source: EventSource, deviceId: Option<string>)

  /** `BaseEvent` defaults: source API, no device, `ts` from the clock. */
  function DefaultBase(eventType: EventType, ts: Option<Clock.Instant>, now: Clock.Instant): (b: BaseFields)
    ensures b.eventType == eventType && b.source == Api && b.deviceId == None
    ensures b.ts == (if ts.Some? then ts.value else now)
  {
    BaseFields(eventType, ts.GetOr(now), Api, None)
  }

  datatype GeoEvent = GeoEvent(
    base: BaseFields, lat: real, lon: real, accuracy: Option<real>,
    altitude: Option<real>, speed: Option<real>, heading: Option<real>)

  datatype PurchaseEvent = PurchaseEvent(
    base: BaseFields, item: string, amount: real, currency: string, place: Option<string>,
    category: Option<string>, paymentMethod: Option<string>, lat: Option<real>, lon: Option<real>)

  datatype SocialEvent = SocialEvent(
    base: BaseFields, action: string, personId: Option<string>, personName: Option<string>,
    context: Option<string>, durationMinutes: Option<int>, lat: Option<real>, lon: Option<real>)

  datatype HealthEvent = HealthEvent(
    base: BaseFields, metric: string, value: real, unit: string,
    minValue: Option<real>, maxValue: Option<real>, avgValue: Option<real>)

  datatype ActivityEvent = ActivityEvent(
    base: BaseFields, activity: string, durationMinutes: int, distanceMeters: Option<real>,
    calories: Option<real>, startLat: Option<real>, startLon: Option<real>,
    endLat: Option<real>, endLon: Option<real>)

  datatype CustomEvent = CustomEvent(base: BaseFields, eventSubtype: string, payload: Dict)

  /** The `LifeEvent` union. */
  datatype LifeEvent =
    | GeoE(geo: GeoEvent)
    | PurchaseE(purchase: PurchaseEvent)
    | SocialE(social: SocialEvent)
    | HealthE(health: HealthEvent)
    | ActivityE(activity: ActivityEvent)
    | CustomE(custom: CustomEvent)
  {
    function Base(): BaseFields
    {
      match this
      case GeoE(e) => e.base
      case PurchaseE(e) => e.base
      case SocialE(e) => e.base
      case HealthE(e) => e.base
      case ActivityE(e) => e.base
      case CustomE(e) => e.base
    }
  }

  predicate NonNegative(x: Option<real>)
  {
    x.None? || x.value >= 0.0
  }

  /** The field constraints of `GeoEvent`. */
  predicate ValidGeo(e: GeoEvent)
  {
    -90.0 <= e.lat <= 90.0 && -180.0 <= e.lon <= 180.0
    && NonNegative(e.accuracy) && NonNegative(e.speed)
    && (e.heading.None? || 0.0 <= e.heading.value < 360.0)
  }

  /** The field constraint of `PurchaseEvent`. */
  predicate ValidPurchase(e: PurchaseEvent)
  {
    e.amount >= 0.0
  }

  /** `GeoEvent(...)`: rejects coordinates, accuracy, speed or heading out of range. */
  function NewGeoEvent(
    base: BaseFields, lat: real, lon: real, accuracy: Option<real>,
    altitude: Option<real>, speed: Option<real>, heading: Option<real>): (r: Result<GeoEvent>)
    ensures r.Ok? ==> ValidGeo(r.value) && r.value.base == base
                      && r.value.lat == lat && r.value.lon == lon && r.value.accuracy == accuracy
                      && r.value.altitude == altitude && r.value.speed == speed && r.value.heading == heading
    ensures r.Err? ==> r.error == ValidationError
    ensures r.Ok? <==> (-90.0 <= lat <= 90.0 && -180.0 <= lon <= 180.0
                        && NonNegative(accuracy) && NonNegative(speed)
                        && (heading.None? || 0.0 <= heading.value < 360.0))
    ensures (lat < -90.0 || lat > 90.0 || lon < -180.0 || lon > 180.0) ==> r.Err?
    ensures (!NonNegative(accuracy) || !NonNegative(speed)) ==> r.Err?
    ensures (heading.Some? && (heading.value < 0.0 || heading.value >= 360.0)) ==> r.Err?
  {
    var e := GeoEvent(base, lat, lon, accuracy, altitude, speed, heading);
    if ValidGeo(e) then Ok(e) else Err(ValidationError)
  }

  /** `PurchaseEvent(...)`: rejects a negative amount; the currency defaults to RUB. */
  function NewPurchaseEvent(
    base: BaseFields, item: string, amount: real, currency: Option<string>, place: Option<string>,
    category: Option<string>, paymentMethod: Option<string>, lat: Option<real>, lon: Option<real>): (r: Result<PurchaseEvent>)
    ensures r.Ok? <==> amount >= 0.0
    ensures r.Ok? ==> ValidPurchase(r.value) && r.value.item == item && r.value.amount == amount
                      && r.value.currency == (if currency.Some? then currency.value else "RUB")
                      && r.value.base == base && r.value.place == place && r.value.category == category
                      && r.value.paymentMethod == paymentMethod && r.value.lat == lat && r.value.lon == lon
    ensures r.Err? ==> r.error == ValidationError
  {
    var e := PurchaseEvent(base, item, amount, currency.GetOr("RUB"), place, category, paymentMethod, lat, lon);
    if ValidPurchase(e) then Ok(e) else Err(ValidationError)
  }

  /** An event whose class constraints hold. */
  predicate ValidEvent(e: LifeEvent)
  {
    match e
    case GeoE(g) => ValidGeo(g)
    case PurchaseE(p) => ValidPurchase(p)
    case _ => true
  }

  /** `EventBatch`: the user and the already-validated events. */
  datatype EventBatch = EventBatch(userId: Uuid, events: seq<LifeEvent>)

  // ---------------------------------------------------------------------
  // Patterns and memory queries

  datatype DiscoveredPattern = DiscoveredPattern(
    id: Uuid, userId: Uuid, patternType: PatternType, name: string, description: string,
    confidence: real, centerLat: Option<real>, centerLon: Option<real>, radiusMeters: Option<real>,
    timePattern: Option<string>, frequencyPerWeek: real, firstSeen: Clock.Instant,
    lastSeen: Clock.Instant, occurrences: int, isActive: bool, data: Dict)

  /**
   * `DiscoveredPattern(...)` given the required fields: confidence must lie in
   * [0, 1]; the rest take their declared defaults.
   */
  function NewDiscoveredPattern(
    id: Uuid, userId: Uuid, patternType: PatternType, name: string, description: string,
    confidence: real, firstSeen: Clock.Instant, lastSeen: Clock.Instant): (r: Result<DiscoveredPattern>)
    ensures r.Ok? <==> 0.0 <= confidence <= 1.0
    ensures r.Ok? ==> var p := r.value;
      p.confidence == confidence && p.frequencyPerWeek == 0.0 && p.occurrences == 1 && p.isActive
      && p.timePattern.None? && p.centerLat.None? && p.centerLon.None? && p.radiusMeters.None?
      && p.data == [] && p.name == name && p.description == description && p.patternType == patternType
      && p.userId == userId && p.id == id && p.firstSeen == firstSeen && p.lastSeen == lastSeen
  {
    if 0.0 <= confidence <= 1.0 then
      Ok(DiscoveredPattern(id, userId, patternType, name, description, confidence, None, None, None,
                           None, 0.0, firstSeen, lastSeen, 1, true, []))
    else Err(ValidationError)
  }

  datatype MemorySearchQuery = MemorySearchQuery(
    question: string, userId: Uuid, startDate: Option<Clock.Instant>, endDate: Option<Clock.Instant>,
    eventTypes: Option<seq<EventType>>, includeAiReasoning: bool, maxEvents: int)

  /** `MemorySearchQuery(...)`: question of 3 to 500 characters, `max_events` in 1..1000 (default 100). */
  function NewMemorySearchQuery(
    question: string, userId: Uuid, startDate: Option<Clock.Instant>, endDate: Option<Clock.Instant>,
    eventTypes: Option<seq<EventType>>, includeAiReasoning: Option<bool>, maxEvents: Option<int>): (r: Result<MemorySearchQuery>)
    ensures r.Ok? <==> 3 <= |question| <= 500 && (maxEvents.None? || 1 <= maxEvents.value <= 1000)
    ensures r.Ok? ==> r.value.question == question
                      && r.value.maxEvents == (if maxEvents.Some? then maxEvents.value else 100)
                      && r.value.includeAiReasoning == (includeAiReasoning.None? || includeAiReasoning.value)
                      && 1 <= r.value.maxEvents <= 1000
  {
    var m := maxEvents.GetOr(100);
    if 3 <= |question| <= 500 && 1 <= m <= 1000 then
      Ok(MemorySearchQuery(question, userId, startDate, endDate, eventTypes, includeAiReasoning.GetOr(true), m))
    else Err(ValidationError)
  }

  /** `MemorySearchResult.confidence` must lie in [0, 1]. */
  predicate ValidSearchConfidence(confidence: real)
  {
    0.0 <= confidence <= 1.0
  }
}
