// The ClickHouse side of Life-Stream (app/life_stream/clickhouse.py): the
// mapping of an event to a row of the `events` table, the store's insert
// and pattern-save operations, and the statistics fold over the grouped
// query result. The SQL queries themselves are not modelled; their result
// rows are inputs.

module EventStore {
  import opened Wrappers
  import opened Json
  import opened LifeStreamModels
  import Clock

  /** The `events` table columns, in insertion order. */
  const EventColumns: seq<string> := [
    "user_id", "timestamp", "event_type", "event_subtype", "source",
    "device_id", "latitude", "longitude", "accuracy", "altitude",
    "speed", "payload"]

  /** Fields left out of the payload because they have their own columns. */
  const PayloadExcluded: set<string> :=
    {"type", "ts", "timestamp", "source", "device_id", "lat", "lon", "accuracy", "altitude", "speed"}

  function OptReal(x: Option<real>): Json
  {
    if x.Some? then JFloat(x.value) else JNull
  }

  function OptStr(x: Option<string>): Json
  {
    if x.Some? then JStr(x.value) else JNull
  }

  function OptInt(x: Option<int>): Json
  {
    if x.Some? then JInt(x.value) else JNull
  }

  function BaseDump(b: BaseFields): Dict
  {
    [("type", JStr(EventTypeValue(b.eventType))), ("ts", JStr(Clock.IsoFormat(b.ts))),
     ("source", JStr(EventSourceValue(b.source))), ("device_id", OptStr(b.deviceId))]
  }

  /** `event.model_dump()`: every field under its Python name, in declaration order. */
  function ModelDump(e: LifeEvent): Dict
  {
    match e
    case GeoE(g) =>
      BaseDump(g.base) + [("lat", JFloat(g.lat)), ("lon", JFloat(g.lon)), ("accuracy", OptReal(g.accuracy)),
                          ("altitude", OptReal(g.altitude)), ("speed", OptReal(g.speed)), ("heading", OptReal(g.heading))]
    case PurchaseE(p) =>
      BaseDump(p.base) + [("item", JStr(p.item)), ("amount", JFloat(p.amount)), ("currency", JStr(p.currency)),
                          ("place", OptStr(p.place)), ("category", OptStr(p.category)),
                          ("payment_method", OptStr(p.paymentMethod)), ("lat", OptReal(p.lat)), ("lon", OptReal(p.lon))]
    case SocialE(s) =>
      BaseDump(s.base) + [("action", JStr(s.action)), ("person_id", OptStr(s.personId)),
                          ("person_name", OptStr(s.personName)), ("context", OptStr(s.context)),
                          ("duration_minutes", OptInt(s.durationMinutes)), ("lat", OptReal(s.lat)), ("lon", OptReal(s.lon))]
    case HealthE(h) =>
      BaseDump(h.base) + [("metric", JStr(h.metric)), ("value", JFloat(h.value)), ("unit", JStr(h.unit)),
                          ("min_value", OptReal(h.minValue)), ("max_value", OptReal(h.maxValue)),
                          ("avg_value", OptReal(h.avgValue))]
    case ActivityE(a) =>
      BaseDump(a.base) + [("activity", JStr(a.activity)), ("duration_minutes", JInt(a.durationMinutes)),
                          ("distance_meters", OptReal(a.distanceMeters)), ("calories", OptReal(a.calories)),
                          ("start_lat", OptReal(a.startLat)), ("start_lon", OptReal(a.startLon)),
                          ("end_lat", OptReal(a.endLat)), ("end_lon", OptReal(a.endLon))]
    case CustomE(c) =>
      BaseDump(c.base) + [("event_subtype", JStr(c.eventSubtype)), ("payload", JObj(c.payload))]
  }

  /** The subtype column: the first of `event_subtype`, `action`, `metric`, `activity` the event has. */
  function Subtype(e: LifeEvent): string
  {
    match e
    case CustomE(c) => c.eventSubtype
    case SocialE(s) => s.action
    case HealthE(h) => h.metric
    case ActivityE(a) => a.activity
    case _ => ""
  }

  /** `getattr(event, 'lat', None)` and `getattr(event, 'lon', None)`. */
  function Latitude(e: LifeEvent): Option<real>
  {
    match e
    case GeoE(g) => Some(g.lat)
    case PurchaseE(p) => p.lat
    case SocialE(s) => s.lat
    case _ => None
  }

  function Longitude(e: LifeEvent): Option<real>
  {
    match e
    case GeoE(g) => Some(g.lon)
    case PurchaseE(p) => p.lon
    case SocialE(s) => s.lon
    case _ => None
  }

  /** A row of the `events` table; the fields follow `EventColumns`. */
  datatype EventRow = EventRow(
    userId: string, timestamp: Clock.Instant, eventType: string, eventSubtype: string,
    source: string, deviceId: string, latitude: Option<real>, longitude: Option<real>,
    accuracy: Option<real>, altitude: Option<real>, speed: Option<real>, payload: Dict)

  /** `_event_to_row`. */
  function EventToRow(userId: Uuid, e: LifeEvent, source: string): (r: EventRow)
    ensures r.userId == userId && r.timestamp == e.Base().ts && r.source == source
    ensures r.eventType == EventTypeValue(e.Base().eventType)
    ensures r.deviceId == (if e.Base().deviceId.Some? then e.Base().deviceId.value else "")
    ensures r.latitude == Latitude(e) && r.longitude == Longitude(e)
    ensures e.GeoE? ==> r.accuracy == e.geo.accuracy && r.altitude == e.geo.altitude && r.speed == e.geo.speed
    ensures !e.GeoE? ==> r.accuracy.None? && r.altitude.None? && r.speed.None?
    ensures r.eventSubtype == Subtype(e)
    ensures forall i :: 0 <= i < |r.payload| ==> r.payload[i].0 !in PayloadExcluded && r.payload[i] in ModelDump(e)
    ensures forall i :: 0 <= i < |ModelDump(e)| && ModelDump(e)[i].0 !in PayloadExcluded ==> ModelDump(e)[i] in r.payload
  {
    var b := e.Base();
    var geo := if e.GeoE? then Some(e.geo) else None;
    EventRow(userId, b.ts, EventTypeValue(b.eventType), Subtype(e), source, b.deviceId.GetOr(""),
             Latitude(e), Longitude(e),
             if geo.Some? then geo.value.accuracy else None,
             if geo.Some? then geo.value.altitude else None,
             if geo.Some? then geo.value.speed else None,
             Without(ModelDump(e), PayloadExcluded))
  }

  /** The keys of a geo event's dump, in order. */
  predicate GeoDumpShape(d: Dict)
  {
    |d| == 10 && d[0].0 == "type" && d[1].0 == "ts" && d[2].0 == "source" && d[3].0 == "device_id"
    && d[4].0 == "lat" && d[5].0 == "lon" && d[6].0 == "accuracy" && d[7].0 == "altitude"
    && d[8].0 == "speed" && d[9].0 == "heading"
  }

  lemma GeoDumpKeys(g: GeoEvent)
    ensures GeoDumpShape(ModelDump(GeoE(g))) && ModelDump(GeoE(g))[9].1 == OptReal(g.heading)
  {
    var base := BaseDump(g.base);
    BaseDumpKeys(g.base);
    var rest := [("lat", JFloat(g.lat)), ("lon", JFloat(g.lon)), ("accuracy", OptReal(g.accuracy)),
                 ("altitude", OptReal(g.altitude)), ("speed", OptReal(g.speed)), ("heading", OptReal(g.heading))];
    assert ModelDump(GeoE(g)) == base + rest;
  }

  /** The four common fields come first, in declaration order. */
  lemma BaseDumpKeys(b: BaseFields)
    ensures |BaseDump(b)| == 4
    ensures BaseDump(b)[0].0 == "type" && BaseDump(b)[1].0 == "ts" && BaseDump(b)[2].0 == "source"
    ensures BaseDump(b)[3].0 == "device_id"
  {
  }

  lemma GeoShapePayload(d: Dict)
    requires GeoDumpShape(d)
    ensures Without(d, PayloadExcluded) == [d[9]]
  {
    WithoutSingle(d, PayloadExcluded, 9);
  }

  /** The payload of a geo event keeps only `heading`; the other geo fields have columns. */
  lemma GeoPayload(g: GeoEvent)
    ensures Without(ModelDump(GeoE(g)), PayloadExcluded) == [("heading", OptReal(g.heading))]
  {
    GeoDumpKeys(g);
    GeoShapePayload(ModelDump(GeoE(g)));
  }

  /** The subtype of a row is the class's own discriminating field, or "". */
  lemma SubtypePrecedence(userId: Uuid, e: LifeEvent, source: string)
    ensures var st := EventToRow(userId, e, source).eventSubtype;
      (e.CustomE? ==> st == e.custom.eventSubtype)
      && (e.SocialE? ==> st == e.social.action)
      && (e.HealthE? ==> st == e.health.metric)
      && (e.ActivityE? ==> st == e.activity.activity)
      && ((e.GeoE? || e.PurchaseE?) ==> st == "")
  {
  }

  function Rows(userId: Uuid, events: seq<LifeEvent>, source: string): (rows: seq<EventRow>)
    ensures |rows| == |events|
    ensures forall i :: 0 <= i < |events| ==> rows[i] == EventToRow(userId, events[i], source)
  {
    seq(|events|, i requires 0 <= i < |events| => EventToRow(userId, events[i], source))
  }

  // ---------------------------------------------------------------------
  // Patterns table

  datatype PatternRow = PatternRow(
    userId: string, patternType: Json, name: Json, description: Json, confidence: Json,
    data: Json, centerLat: Json, centerLon: Json, radius: Json, timePattern: Json,
    frequencyPerWeek: Json, firstSeen: Json, lastSeen: Json, occurrences: Json, isActive: Json)

  /** `pattern[key]`: KeyError when the key is missing. */
  function Required(p: Dict, key: string): (r: Result<Json>)
    ensures r.Ok? <==> HasKey(p, key)
    ensures r.Ok? ==> (key, r.value) in p
    ensures r.Err? ==> r.error == KeyError(key)
  {
    var v := Lookup(p, key);
    if v.Some? then Ok(v.value) else Err(KeyError(key))
  }

  /** The row `save_pattern` inserts; the required keys are read in tuple order. */
  function PatternRowOf(p: Dict): (r: Result<PatternRow>)
    ensures r.Ok? <==> (HasKey(p, "user_id") && HasKey(p, "pattern_type") && HasKey(p, "name")
                        && HasKey(p, "description") && HasKey(p, "confidence")
                        && HasKey(p, "first_seen") && HasKey(p, "last_seen"))
    ensures !HasKey(p, "user_id") ==> r == Err(KeyError("user_id"))
    ensures HasKey(p, "user_id") && !HasKey(p, "pattern_type") ==> r == Err(KeyError("pattern_type"))
    ensures HasKey(p, "user_id") && HasKey(p, "pattern_type") && !HasKey(p, "name") ==> r == Err(KeyError("name"))
    ensures (HasKey(p, "user_id") && HasKey(p, "pattern_type") && HasKey(p, "name") && !HasKey(p, "description"))
            ==> r == Err(KeyError("description"))
    ensures (HasKey(p, "user_id") && HasKey(p, "pattern_type") && HasKey(p, "name") && HasKey(p, "description")
             && !HasKey(p, "confidence"))
            ==> r == Err(KeyError("confidence"))
    ensures (HasKey(p, "user_id") && HasKey(p, "pattern_type") && HasKey(p, "name") && HasKey(p, "description")
             && HasKey(p, "confidence") && !HasKey(p, "first_seen"))
            ==> r == Err(KeyError("first_seen"))
    ensures (HasKey(p, "user_id") && HasKey(p, "pattern_type") && HasKey(p, "name") && HasKey(p, "description")
             && HasKey(p, "confidence") && HasKey(p, "first_seen") && !HasKey(p, "last_seen"))
            ==> r == Err(KeyError("last_seen"))
  {
    var userId :- Required(p, "user_id");
    var patternType :- Required(p, "pattern_type");
    var name :- Required(p, "name");
    var description :- Required(p, "description");
    var confidence :- Required(p, "confidence");
    var firstSeen :- Required(p, "first_seen");
    var lastSeen :- Required(p, "last_seen");
    Ok(PatternRow(PyStr(userId), patternType, name, description, confidence,
                  Get(p, "data", JObj([])), Get(p, "center_lat", JNull), Get(p, "center_lon", JNull),
                  Get(p, "radius_meters", JNull), Get(p, "time_pattern", JStr("")),
                  Get(p, "frequency_per_week", JInt(0)), firstSeen, lastSeen,
                  Get(p, "occurrences", JInt(1)), Get(p, "is_active", JBool(true))))
  }

  /** A dict with every required key makes a row. */
  lemma CompleteRow(p: Dict)
    requires HasKey(p, "user_id") && HasKey(p, "pattern_type") && HasKey(p, "name")
    requires HasKey(p, "description") && HasKey(p, "confidence")
    requires HasKey(p, "first_seen") && HasKey(p, "last_seen")
    ensures PatternRowOf(p).Ok?
  {
  }

  /** The row's owner is `str(pattern["user_id"])` and its type `pattern["pattern_type"]`. */
  lemma RowIdentity(p: Dict)
    requires PatternRowOf(p).Ok?
    ensures Lookup(p, "user_id").Some? && Lookup(p, "pattern_type").Some?
    ensures PatternRowOf(p).value.userId == PyStr(Lookup(p, "user_id").value)
    ensures PatternRowOf(p).value.patternType == Lookup(p, "pattern_type").value
  {
  }

  /** The routine columns: `time_pattern` (default "") and `frequency_per_week` (default 0). */
  lemma RowSchedule(p: Dict)
    requires PatternRowOf(p).Ok?
    ensures PatternRowOf(p).value.timePattern == Get(p, "time_pattern", JStr(""))
    ensures PatternRowOf(p).value.frequencyPerWeek == Get(p, "frequency_per_week", JInt(0))
  {
  }

  /** The counters: `occurrences` (default 1) and `is_active` (default True). */
  lemma RowCounts(p: Dict)
    requires PatternRowOf(p).Ok?
    ensures PatternRowOf(p).value.occurrences == Get(p, "occurrences", JInt(1))
    ensures PatternRowOf(p).value.isActive == Get(p, "is_active", JBool(true))
  {
  }

  /** The place columns and the extra data: `center_lat`, `radius_meters` (default None), `data` (default {}). */
  lemma RowPlace(p: Dict)
    requires PatternRowOf(p).Ok?
    ensures PatternRowOf(p).value.centerLat == Get(p, "center_lat", JNull)
    ensures PatternRowOf(p).value.radius == Get(p, "radius_meters", JNull)
    ensures PatternRowOf(p).value.data == Get(p, "data", JObj([]))
  {
  }

  /** A pattern dict without the optional keys gets the declared defaults. */
  lemma PatternDefaults(p: Dict)
    requires PatternRowOf(p).Ok?
    requires !HasKey(p, "time_pattern") && !HasKey(p, "frequency_per_week")
    requires !HasKey(p, "occurrences") && !HasKey(p, "is_active")
    ensures var row := PatternRowOf(p).value;
      row.timePattern == JStr("") && row.frequencyPerWeek == JInt(0)
      && row.occurrences == JInt(1) && row.isActive == JBool(true)
  {
    RowSchedule(p);
    RowCounts(p);
  }

  // ---------------------------------------------------------------------
  // The store

  // ---------------------------------------------------------------------
  // Insights table

  /** The row `save_insight` inserts: the twelve columns in the order it names them. */
  datatype InsightRow = InsightRow(
    userId: string, neo4jNodeId: string, insightType: Json, title: Json, description: Json,
    evidenceEventIds: seq<string>, evidenceCount: int, timeRangeStart: Clock.Instant, timeRangeEnd: Clock.Instant,
    aiModel: string, confidence: Json, reasoning: string)

  class ClickHouse {
    /** Whether `connect()` has set the client; `get_client` raises otherwise. */
    var connected: bool
    var events: seq<EventRow>
    var patterns: seq<PatternRow>
    var insights: seq<InsightRow>

    constructor (connected: bool)
      ensures this.connected == connected && events == [] && patterns == [] && insights == []
    {
      this.connected := connected;
      events := [];
      patterns := [];
      insights := [];
    }

    /** `insert_events`: 0 for an empty list (no client needed), else the number of rows inserted. */
    method InsertEvents(userId: Uuid, batch: seq<LifeEvent>, source: string) returns (r: Result<nat>)
      modifies this
      ensures connected == old(connected) && patterns == old(patterns) && insights == old(insights)
      ensures batch == [] ==> r == Ok(0) && events == old(events)
      ensures batch != [] && !connected ==> r == Err(RuntimeError("ClickHouse not connected")) && events == old(events)
      ensures batch != [] && connected ==> r == Ok(|batch|) && events == old(events) + Rows(userId, batch, source)
    {
      if batch == [] {
        return Ok(0);
      }
      if !connected {
        return Err(RuntimeError("ClickHouse not connected"));
      }
      var rows := EachRow(batch, e => EventToRow(userId, e, source));
      assert rows == Rows(userId, batch, source);
      events := events + rows;
      return Ok(|rows|);
    }

    /** `save_pattern`: inserts one pattern row and returns `str(pattern.get("id", ""))`. */
    method SavePattern(p: Dict) returns (r: Result<string>)
      modifies this
      ensures connected == old(connected) && events == old(events) && insights == old(insights)
      ensures !connected ==> r == Err(RuntimeError("ClickHouse not connected")) && patterns == old(patterns)
      ensures connected && PatternRowOf(p).Err? ==> r == Err(PatternRowOf(p).error) && patterns == old(patterns)
      ensures connected && PatternRowOf(p).Ok? ==>
                r == Ok(PyStr(Get(p, "id", JStr("")))) && patterns == old(patterns) + [PatternRowOf(p).value]
    {
      if !connected {
        return Err(RuntimeError("ClickHouse not connected"));
      }
      var row := PatternRowOf(p);
      if row.Err? {
        return Err(row.error);
      }
      patterns := patterns + [row.value];
      return Ok(PyStr(Get(p, "id", JStr(""))));
    }

    /** `save_insight`: inserts one insight row and returns the insight's id. */
    method SaveInsight(row: InsightRow, id: string) returns (r: Result<string>)
      modifies this
      ensures connected == old(connected) && events == old(events) && patterns == old(patterns)
      ensures !connected ==> r == Err(RuntimeError("ClickHouse not connected")) && insights == old(insights)
      ensures connected ==> r == Ok(id) && insights == old(insights) + [row]
    {
      if !connected {
        return Err(RuntimeError("ClickHouse not connected"));
      }
      insights := insights + [row];
      return Ok(id);
    }
  }

  /** `for event in events: rows.append(to_row(event))`. */
  method EachRow<A, B>(events: seq<A>, toRow: A -> B) returns (rows: seq<B>)
    ensures |rows| == |events|
    ensures forall i :: 0 <= i < |events| ==> rows[i] == toRow(events[i])
  {
    rows := [];
    var i := 0;
    while i < |events|
      invariant 0 <= i <= |events|
      invariant |rows| == i
      invariant forall k :: 0 <= k < i ==> rows[k] == toRow(events[k])
    {
      rows := rows + [toRow(events[i])];
      i := i + 1;
    }
  }

  // ---------------------------------------------------------------------
  // get_event_stats

  /** One row of the grouped query: type, count, min and max timestamp. */
  datatype StatsRow = StatsRow(eventType: string, count: int, first: Option<Clock.Instant>, last: Option<Clock.Instant>)

  datatype TypeStats = TypeStats(count: int, first: Option<string>, last: Option<string>)

  datatype EventStats = EventStats(
    totalEvents: int, byType: seq<(string, TypeStats)>, firstEvent: Option<string>, lastEvent: Option<string>)

  /** `t.isoformat() if t else None`; `iso` is the formatter (`Clock.IsoFormat`). */
  function Iso(t: Option<Clock.Instant>, iso: Clock.Instant -> string): Option<string>
  {
    if t.Some? then Some(iso(t.value)) else None
  }

  function TypeStatsOf(row: StatsRow, iso: Clock.Instant -> string): TypeStats
  {
    TypeStats(row.count, Iso(row.first, iso), Iso(row.last, iso))
  }

  function TotalCount(rows: seq<StatsRow>): int
  {
    if rows == [] then 0 else TotalCount(rows[..|rows| - 1]) + rows[|rows| - 1].count
  }

  /** The loop's update of the earliest timestamp. */
  function EarlierOf(acc: Option<Clock.Instant>, t: Option<Clock.Instant>): Option<Clock.Instant>
  {
    if t.Some? && (acc.None? || t.value < acc.value) then t else acc
  }

  function LaterOf(acc: Option<Clock.Instant>, t: Option<Clock.Instant>): Option<Clock.Instant>
  {
    if t.Some? && (acc.None? || t.value > acc.value) then t else acc
  }

  function EarliestFirst(rows: seq<StatsRow>): Option<Clock.Instant>
  {
    if rows == [] then None else EarlierOf(EarliestFirst(rows[..|rows| - 1]), rows[|rows| - 1].first)
  }

  function LatestLast(rows: seq<StatsRow>): Option<Clock.Instant>
  {
    if rows == [] then None else LaterOf(LatestLast(rows[..|rows| - 1]), rows[|rows| - 1].last)
  }

  function ByType(rows: seq<StatsRow>, iso: Clock.Instant -> string): seq<(string, TypeStats)>
  {
    if rows == [] then []
    else Put(ByType(rows[..|rows| - 1], iso), rows[|rows| - 1].eventType, TypeStatsOf(rows[|rows| - 1], iso))
  }

  /** `get_event_stats` over the rows of the grouped query. */
  method GetEventStats(rows: seq<StatsRow>, iso: Clock.Instant -> string) returns (stats: EventStats)
    ensures stats.totalEvents == TotalCount(rows)
    ensures stats.byType == ByType(rows, iso)
    ensures stats.firstEvent == Iso(EarliestFirst(rows), iso)
    ensures stats.lastEvent == Iso(LatestLast(rows), iso)
  {
    var total := 0;
    var byType: seq<(string, TypeStats)> := [];
    var first: Option<Clock.Instant> := None;
    var last: Option<Clock.Instant> := None;
    var i := 0;
    while i < |rows|
      invariant 0 <= i <= |rows|
      invariant total == TotalCount(rows[..i])
      invariant byType == ByType(rows[..i], iso)
      invariant first == EarliestFirst(rows[..i])
      invariant last == LatestLast(rows[..i])
    {
      var row := rows[i];
      ghost var next := rows[..i + 1];
      assert next[..i] == rows[..i] && next[i] == row;
      assert TotalCount(next) == TotalCount(rows[..i]) + row.count;
      assert ByType(next, iso) == Put(ByType(rows[..i], iso), row.eventType, TypeStatsOf(row, iso));
      assert EarliestFirst(next) == EarlierOf(EarliestFirst(rows[..i]), row.first);
      assert LatestLast(next) == LaterOf(LatestLast(rows[..i]), row.last);
      total := total + row.count;
      byType := Put(byType, row.eventType, TypeStatsOf(row, iso));
      if row.first.Some? && (first.None? || row.first.value < first.value) {
        first := row.first;
      }
      if row.last.Some? && (last.None? || row.last.value > last.value) {
        last := row.last;
      }
      i := i + 1;
    }
    assert rows[..i] == rows;
    stats := EventStats(total, byType, Iso(first, iso), Iso(last, iso));
  }

  /** With no rows the total is 0 and both bounds are None. */
  lemma EmptyStats(iso: Clock.Instant -> string)
    ensures TotalCount([]) == 0 && EarliestFirst([]).None? && LatestLast([]).None? && ByType([], iso) == []
  {
  }

  /** The earliest first timestamp is the minimum of the non-null ones, and None when there are none. */
  lemma {:induction false} EarliestFirstIsMinimum(rows: seq<StatsRow>)
    ensures EarliestFirst(rows).None? <==> forall i :: 0 <= i < |rows| ==> rows[i].first.None?
    ensures EarliestFirst(rows).Some? ==>
              (exists i :: 0 <= i < |rows| && rows[i].first == EarliestFirst(rows))
              && forall i :: 0 <= i < |rows| && rows[i].first.Some? ==> EarliestFirst(rows).value <= rows[i].first.value
  {
    if rows != [] {
      var init := rows[..|rows| - 1];
      EarliestFirstIsMinimum(init);
      assert forall i :: 0 <= i < |init| ==> init[i] == rows[i];
      if EarliestFirst(init).Some? {
        var k :| 0 <= k < |init| && init[k].first == EarliestFirst(init);
        assert rows[k].first == EarliestFirst(init);
      }
    }
  }

  /** The latest last timestamp is the maximum of the non-null ones, and None when there are none. */
  lemma {:induction false} LatestLastIsMaximum(rows: seq<StatsRow>)
    ensures LatestLast(rows).None? <==> forall i :: 0 <= i < |rows| ==> rows[i].last.None?
    ensures LatestLast(rows).Some? ==>
              (exists i :: 0 <= i < |rows| && rows[i].last == LatestLast(rows))
              && forall i :: 0 <= i < |rows| && rows[i].last.Some? ==> rows[i].last.value <= LatestLast(rows).value
  {
    if rows != [] {
      var init := rows[..|rows| - 1];
      LatestLastIsMaximum(init);
      assert forall i :: 0 <= i < |init| ==> init[i] == rows[i];
      if LatestLast(init).Some? {
        var k :| 0 <= k < |init| && init[k].last == LatestLast(init);
        assert rows[k].last == LatestLast(init);
      }
    }
  }

  predicate DistinctTypes(rows: seq<StatsRow>)
  {
    forall i, j :: 0 <= i < j < |rows| ==> rows[i].eventType != rows[j].eventType
  }

  /** Grouped rows have distinct types, so `by_type` has one entry per row, in row order. */
  lemma {:induction false} ByTypeOnePerRow(rows: seq<StatsRow>, iso: Clock.Instant -> string)
    requires DistinctTypes(rows)
    ensures |ByType(rows, iso)| == |rows|
    ensures forall i :: 0 <= i < |rows| ==> ByType(rows, iso)[i] == (rows[i].eventType, TypeStatsOf(rows[i], iso))
  {
    if rows != [] {
      var init := rows[..|rows| - 1];
      assert DistinctTypes(init);
      ByTypeOnePerRow(init, iso);
      var last := rows[|rows| - 1];
      forall i | 0 <= i < |init|
        ensures ByType(init, iso)[i].0 != last.eventType
      {
        assert init[i] == rows[i];
      }
      var entries := ByType(init, iso) + [(last.eventType, TypeStatsOf(last, iso))];
      assert ByType(rows, iso) == entries;
      forall i | 0 <= i < |rows|
        ensures entries[i] == (rows[i].eventType, TypeStatsOf(rows[i], iso))
      {
        if i < |init| {
          assert init[i] == rows[i];
        }
      }
    }
  }
}
