// The ingestion endpoints of Life-Stream (app/life_stream/api/ingest.py):
// validation of a loosely typed single event, batch accounting, and the
// parsing of the comma-separated `event_types` query parameter. HTTP
// errors are replies carrying the status code.

module Ingest {
  import opened Wrappers
  import opened Text
  import opened Json
  import opened LifeStreamModels
  import opened EventStore
  import Clock

  /** `SingleEventInput`: every field but the user and the type is optional. */
  datatype SingleEventInput = SingleEventInput(
    userId: Uuid, eventType: string, ts: Option<Clock.Instant>,
    lat: Option<real>, lon: Option<real>, accuracy: Option<real>, speed: Option<real>,
    item: Option<string>, amount: Option<real>, place: Option<string>, category: Option<string>,
    action: Option<string>, personId: Option<string>, personName: Option<string>,
    metric: Option<string>, value: Option<real>, unit: Option<string>,
    payload: Option<Dict>)

  /** `not s` for an optional string. */
  predicate Falsy(s: Option<string>)
  {
    s.None? || s.value == []
  }

  /** The message of the ValueError `EventType(s)` raises. */
  function NotAnEventType(s: string): PyError
  {
    ValueError("'" + s + "' is not a valid EventType")
  }

  /** The types `ingest_single_event` builds; the other enum values are unsupported there. */
  predicate SingleSupported(t: EventType)
  {
    t == Geo || t == Purchase || t == Social || t == Health
  }

  /** The ranges `GeoEvent` checks, on the fields a single geo input supplies (no heading). */
  predicate GeoInputInRange(input: SingleEventInput)
    requires input.lat.Some? && input.lon.Some?
  {
    -90.0 <= input.lat.value <= 90.0 && -180.0 <= input.lon.value <= 180.0
    && NonNegative(input.accuracy) && NonNegative(input.speed)
  }

  /** The typed event `ingest_single_event` builds, or the error it raises. */
  function TypedEvent(input: SingleEventInput, now: Clock.Instant): (r: Result<LifeEvent>)
    ensures r.Err? ==> IsValueError(r.error)
    ensures ParseEventType(input.eventType).None? ==> r == Err(NotAnEventType(input.eventType))
    ensures r.Ok? ==> ParseEventType(input.eventType) == Some(r.value.Base().eventType)
                      && SingleSupported(r.value.Base().eventType) && ValidEvent(r.value)
                      && r.value.Base().ts == (if input.ts.Some? then input.ts.value else now)
                      && r.value.Base().source == Api && r.value.Base().deviceId.None?
    ensures (ParseEventType(input.eventType).Some? && !SingleSupported(ParseEventType(input.eventType).value)) ==>
              r == Err(ValueError("Unsupported event type: " + input.eventType))
    // geo: lat and lon are required and range-checked
    ensures input.eventType == "geo" && (input.lat.None? || input.lon.None?) ==>
              r == Err(ValueError("Geo events require lat and lon"))
    ensures input.eventType == "geo" && input.lat.Some? && input.lon.Some? ==>
              (r.Ok? <==> GeoInputInRange(input)) && (r.Ok? ==> r.value.GeoE?)
              && (r.Err? ==> r.error == ValidationError)
    ensures r.Ok? && r.value.GeoE? ==>
              Some(r.value.geo.lat) == input.lat && Some(r.value.geo.lon) == input.lon
              && r.value.geo.accuracy == input.accuracy && r.value.geo.speed == input.speed
              && r.value.geo.altitude.None? && r.value.geo.heading.None?
    // purchase: a non-empty item; a missing amount is 0
    ensures input.eventType == "purchase" && Falsy(input.item) ==> r == Err(ValueError("Purchase events require item"))
    ensures input.eventType == "purchase" && !Falsy(input.item) && input.amount.None? ==> r.Ok?
    ensures r.Ok? && r.value.PurchaseE? ==>
              Some(r.value.purchase.item) == input.item
              && r.value.purchase.amount == (if input.amount.Some? then input.amount.value else 0.0)
              && r.value.purchase.currency == "RUB" && r.value.purchase.place == input.place
              && r.value.purchase.category == input.category
              && r.value.purchase.lat == input.lat && r.value.purchase.lon == input.lon
    // social: a non-empty action
    ensures input.eventType == "social" ==> (r.Ok? <==> !Falsy(input.action))
    ensures r.Ok? && r.value.SocialE? ==>
              Some(r.value.social.action) == input.action && r.value.social.personId == input.personId
              && r.value.social.personName == input.personName
              && r.value.social.lat == input.lat && r.value.social.lon == input.lon
    // health: a non-empty metric and a value
    ensures input.eventType == "health" ==> (r.Ok? <==> !Falsy(input.metric) && input.value.Some?)
    ensures r.Ok? && r.value.HealthE? ==>
              Some(r.value.health.metric) == input.metric && Some(r.value.health.value) == input.value
              && r.value.health.unit == (if input.unit.Some? then input.unit.value else "")
  {
    var parsed := ParseEventType(input.eventType);
    if parsed.None? then Err(NotAnEventType(input.eventType))
    else
      var t := parsed.value;
      var base := DefaultBase(t, input.ts, now);
      match t
      case Geo =>
        if input.lat.None? || input.lon.None? then Err(ValueError("Geo events require lat and lon"))
        else
          var g :- NewGeoEvent(base, input.lat.value, input.lon.value, input.accuracy, None, input.speed, None);
          Ok(GeoE(g))
      case Purchase =>
        if Falsy(input.item) then Err(ValueError("Purchase events require item"))
        else
          var p :- NewPurchaseEvent(base, input.item.value, input.amount.GetOr(0.0), None,
                                    input.place, input.category, None, input.lat, input.lon);
          Ok(PurchaseE(p))
      case Social =>
        if Falsy(input.action) then Err(ValueError("Social events require action"))
        else
          Ok(SocialE(SocialEvent(base, input.action.value, input.personId, input.personName,
                                 None, None, input.lat, input.lon)))
      case Health =>
        if Falsy(input.metric) || input.value.None? then Err(ValueError("Health events require metric and value"))
        else
          Ok(HealthE(HealthEvent(base, input.metric.value, input.value.value, input.unit.GetOr(""),
                                 None, None, None)))
      case _ =>
        Err(ValueError("Unsupported event type: " + input.eventType))
  }

  /** A geo input with coordinates out of range is rejected by the model validation. */
  lemma GeoOutOfRange(input: SingleEventInput, now: Clock.Instant)
    requires input.eventType == "geo" && input.lat.Some? && input.lon.Some?
    requires input.lat.value > 90.0 || input.lat.value < -90.0
    ensures TypedEvent(input, now) == Err(ValidationError)
  {
  }

  /** A purchase with a negative amount is rejected; a zero or missing one is accepted. */
  lemma PurchaseAmount(input: SingleEventInput, now: Clock.Instant)
    requires input.eventType == "purchase" && !Falsy(input.item)
    ensures TypedEvent(input, now).Ok? <==> (input.amount.None? || input.amount.value >= 0.0)
  {
  }

  // ---------------------------------------------------------------------
  // Replies

  datatype IngestResponse = IngestResponse(success: bool, eventsReceived: int, eventsStored: int, errors: seq<string>)

  /** A reply: the response body, or an HTTP error whose detail is `context` followed by `str(cause)`. */
  datatype Reply =
    | Accepted(response: IngestResponse)
    | Rejected(status: int, context: string, cause: Option<PyError>)

  /** The outcome of `ingest_single_event`, given whether the store is connected. */
  function SingleOutcome(input: SingleEventInput, now: Clock.Instant, connected: bool): (reply: Reply)
    ensures reply.Rejected? && reply.status == 400 <==> TypedEvent(input, now).Err?
    ensures reply.Rejected? && reply.status == 500 <==> TypedEvent(input, now).Ok? && !connected
    ensures reply.Accepted? <==> TypedEvent(input, now).Ok? && connected
    ensures reply.Accepted? ==> reply.response == IngestResponse(true, 1, 1, [])
  {
    var typed := TypedEvent(input, now);
    if typed.Err? then Rejected(400, "", Some(typed.error))
    else if !connected then Rejected(500, "Failed to store event: ", Some(RuntimeError("ClickHouse not connected")))
    else Accepted(IngestResponse(true, 1, 1, []))
  }

  /** A geo input reaches the store exactly when its coordinates and readings are in range. */
  lemma GeoAcceptedIffInRange(input: SingleEventInput, now: Clock.Instant)
    requires input.eventType == "geo" && input.lat.Some? && input.lon.Some?
    ensures SingleOutcome(input, now, true).Accepted? <==> GeoInputInRange(input)
    ensures !GeoInputInRange(input) ==> SingleOutcome(input, now, true) == Rejected(400, "", Some(ValidationError))
  {
  }

  /** Every enum value other than geo, purchase, social and health is answered with 400. */
  lemma UnsupportedTypesRejected(input: SingleEventInput, now: Clock.Instant, connected: bool)
    requires input.eventType in ["transaction", "activity", "communication", "custom"]
    ensures SingleOutcome(input, now, connected) ==
              Rejected(400, "", Some(ValueError("Unsupported event type: " + input.eventType)))
  {
    var t := ParseEventType(input.eventType);
    assert t.Some? && !SingleSupported(t.value);
  }

  /** `ingest_single_event`: validates, then inserts the one event with source "api". */
  method IngestSingleEvent(store: ClickHouse, input: SingleEventInput, now: Clock.Instant) returns (reply: Reply)
    modifies store
    ensures reply == SingleOutcome(input, now, old(store.connected))
    ensures store.connected == old(store.connected) && store.patterns == old(store.patterns) && store.insights == old(store.insights)
    ensures reply.Accepted? ==> store.events == old(store.events) + Rows(input.userId, [TypedEvent(input, now).value], "api")
    ensures reply.Rejected? ==> store.events == old(store.events)
  {
    var typed := TypedEvent(input, now);
    if typed.Err? {
      return Rejected(400, "", Some(typed.error));
    }
    var stored := store.InsertEvents(input.userId, [typed.value], "api");
    if stored.Err? {
      return Rejected(500, "Failed to store event: ", Some(stored.error));
    }
    return Accepted(IngestResponse(true, 1, stored.value, []));
  }

  /**
   * `ingest_events`: every event of the already-validated batch is kept, so
   * `errors` stays empty; an empty batch is answered with 400.
   */
  method IngestEvents(store: ClickHouse, batch: EventBatch) returns (reply: Reply)
    modifies store
    ensures store.connected == old(store.connected) && store.patterns == old(store.patterns) && store.insights == old(store.insights)
    ensures batch.events == [] ==>
              reply == Rejected(400, "No valid events in batch. Errors: []", None) && store.events == old(store.events)
    ensures batch.events != [] && !old(store.connected) ==>
              reply == Rejected(500, "Failed to store events: ", Some(RuntimeError("ClickHouse not connected")))
              && store.events == old(store.events)
    ensures batch.events != [] && old(store.connected) ==>
              reply == Accepted(IngestResponse(true, |batch.events|, |batch.events|, []))
              && store.events == old(store.events) + Rows(batch.userId, batch.events, "api")
  {
    var errors: seq<string> := [];
    var valid: seq<LifeEvent> := [];
    for i := 0 to |batch.events|
      invariant valid == batch.events[..i]
    {
      valid := valid + [batch.events[i]];
    }
    assert valid == batch.events;
    if valid == [] {
      return Rejected(400, "No valid events in batch. Errors: []", None);
    }
    var stored := store.InsertEvents(batch.userId, valid, "api");
    if stored.Err? {
      return Rejected(500, "Failed to store events: ", Some(stored.error));
    }
    return Accepted(IngestResponse(true, |batch.events|, stored.value, errors));
  }

  // ---------------------------------------------------------------------
  // get_user_events: the event_types filter

  /** `[EventType(t.strip()) for t in parts]`: the first piece that is not a type raises. */
  function ParseTypeList(parts: seq<string>): (r: Result<seq<EventType>>)
    ensures r.Ok? ==> |r.value| == |parts|
    ensures r.Err? ==> IsValueError(r.error)
  {
    if parts == [] then Ok([])
    else
      var head := ParseEventType(Strip(parts[0]));
      if head.None? then Err(NotAnEventType(Strip(parts[0])))
      else
        var rest := ParseTypeList(parts[1..]);
        if rest.Err? then rest else Ok([head.value] + rest.value)
  }

  /**
   * The list parses exactly when every stripped piece is an enum value, each
   * type being the one its piece names; otherwise the error names a piece.
   */
  lemma ParseTypeListSpec(parts: seq<string>)
    ensures var r := ParseTypeList(parts);
      (r.Ok? <==> forall i :: 0 <= i < |parts| ==> ParseEventType(Strip(parts[i])).Some?)
      && (r.Ok? ==> forall i :: 0 <= i < |parts| ==> EventTypeValue(r.value[i]) == Strip(parts[i]))
      && (r.Err? ==> exists i :: 0 <= i < |parts| && r.error == NotAnEventType(Strip(parts[i])))
  {
    ParseTypeListOk(parts);
    ParseTypeListErr(parts);
    if ParseTypeList(parts).Ok? {
      forall i | 0 <= i < |parts|
        ensures EventTypeValue(ParseTypeList(parts).value[i]) == Strip(parts[i])
      {
        ParseTypeListAt(parts, i);
      }
    }
  }

  /** The parsing half: success exactly when every piece names a type. */
  lemma {:induction false} ParseTypeListOk(parts: seq<string>)
    ensures ParseTypeList(parts).Ok? <==> forall i :: 0 <= i < |parts| ==> ParseEventType(Strip(parts[i])).Some?
  {
    if parts != [] {
      ParseTypeListOk(parts[1..]);
      assert forall i :: 1 <= i < |parts| ==> parts[i] == parts[1..][i - 1];
    }
  }

  /** Each type parsed is the one its piece names, in order. */
  lemma {:induction false} ParseTypeListAt(parts: seq<string>, i: nat)
    requires ParseTypeList(parts).Ok? && i < |parts|
    ensures ParseEventType(Strip(parts[i])) == Some(ParseTypeList(parts).value[i])
  {
    ParseTypeListHead(parts);
    if i > 0 {
      ParseTypeListAt(parts[1..], i - 1);
      assert parts[i] == parts[1..][i - 1];
      assert ParseTypeList(parts).value[i] == ParseTypeList(parts).value[1..][i - 1];
    }
  }

  /** A parsed list is the first piece's type before the rest's. */
  lemma ParseTypeListHead(parts: seq<string>)
    requires ParseTypeList(parts).Ok? && parts != []
    ensures ParseEventType(Strip(parts[0])) == Some(ParseTypeList(parts).value[0])
    ensures ParseTypeList(parts[1..]).Ok? && ParseTypeList(parts).value[1..] == ParseTypeList(parts[1..]).value
  {
  }

  /** The error half: a failure names one of the pieces. */
  lemma {:induction false} ParseTypeListErr(parts: seq<string>)
    ensures var r := ParseTypeList(parts);
      r.Err? ==> exists i :: 0 <= i < |parts| && r.error == NotAnEventType(Strip(parts[i]))
  {
    if parts != [] && ParseEventType(Strip(parts[0])).Some? {
      var rest := ParseTypeList(parts[1..]);
      ParseTypeListErr(parts[1..]);
      if rest.Err? {
        var j :| 0 <= j < |parts[1..]| && rest.error == NotAnEventType(Strip(parts[1..][j]));
        assert parts[j + 1] == parts[1..][j];
      }
    }
  }

  /** The `event_types` parameter: absent or empty means no filter; otherwise comma-separated values. */
  function ParseEventTypes(param: Option<string>): (r: Result<Option<seq<EventType>>>)
    ensures Falsy(param) ==> r == Ok(None)
    ensures r.Err? ==> IsValueError(r.error)
    ensures !Falsy(param) && r.Ok? ==> r.value.Some? && |r.value.value| == |Split(param.value, ',')| >= 1
  {
    if Falsy(param) then Ok(None)
    else
      var types :- ParseTypeList(Split(param.value, ','));
      Ok(Some(types))
  }

  /** The reply status for `event_types`: 400 when any element is not an event type. */
  function EventTypesStatus(param: Option<string>): (status: int)
    ensures status == 400 <==> ParseEventTypes(param).Err?
  {
    if ParseEventTypes(param).Err? then 400 else 200
  }

  function Values(ts: seq<EventType>): (vs: seq<string>)
    ensures |vs| == |ts| && forall i :: 0 <= i < |ts| ==> vs[i] == EventTypeValue(ts[i])
  {
    seq(|ts|, i requires 0 <= i < |ts| => EventTypeValue(ts[i]))
  }

  predicate LowerLetters(s: string)
  {
    forall i :: 0 <= i < |s| ==> 'a' <= s[i] <= 'z'
  }

  lemma ValueTrimmed(t: EventType)
    ensures Strip(EventTypeValue(t)) == EventTypeValue(t) && ',' !in EventTypeValue(t) && EventTypeValue(t) != []
  {
    var v := EventTypeValue(t);
    assert LowerLetters(v) by {
      match t
      case Geo =>
      case Purchase =>
      case Transaction =>
      case Social =>
      case Health =>
      case Activity =>
      case Communication =>
      case Custom =>
    }
    assert v != [];
    StripTrimmed(v);
  }

  /** Parsing the values of types gives the types back. */
  lemma {:induction false} ParseValues(ts: seq<EventType>)
    ensures ParseTypeList(Values(ts)) == Ok(ts)
  {
    if ts != [] {
      var vs := Values(ts);
      assert vs[1..] == Values(ts[1..]);
      ParseValues(ts[1..]);
      ValueTrimmed(ts[0]);
      ParseEventTypeValue(ts[0]);
      assert ParseEventType(Strip(vs[0])) == Some(ts[0]);
      assert ts == [ts[0]] + ts[1..];
    }
  }

  /** Writing types as a comma-separated list and parsing it gives the types back. */
  lemma EventTypesRoundTrip(ts: seq<EventType>)
    requires ts != []
    ensures ParseEventTypes(Some(Join(Values(ts), [',']))) == Ok(Some(ts))
  {
    var vs := Values(ts);
    forall i | 0 <= i < |vs|
      ensures ',' !in vs[i]
    {
      ValueTrimmed(ts[i]);
    }
    SplitJoin(vs, ',');
    var joined := Join(vs, [',']);
    ValueTrimmed(ts[0]);
    assert joined != [];
    ParseValues(ts);
  }
}
