// The retrieval and answering steps of the Life-Stream memory search
// (`MemoryRAG` in app/life_stream/api/memory.py): merging keyword-search
// hits into the time-range query result, the context text handed to the
// language model, the answer taken from its reply or built without it, and
// the locations, people and transactions listed beside the answer.
//
// The store queries and the graph lookup are inputs: the events the range
// query returned, a search function per keyword, and the people records.

module MemoryContext {
  import opened Wrappers
  import opened Text
  import opened Json
  import opened OracleText
  import opened Grouping

  /** An event as `get_events` and `search_events_for_rag` return it. */
  datatype RetrievedEvent = RetrievedEvent(
    id: string, timestamp: Option<string>, eventType: string, eventSubtype: string,
    latitude: Option<real>, longitude: Option<real>, payload: Dict)

  // ---------------------------------------------------------------------
  // Merging the keyword-search hits (_retrieve_events)

  function Ids(events: seq<RetrievedEvent>): set<string>
  {
    set i | 0 <= i < |events| :: events[i].id
  }

  lemma IdsAppend(a: seq<RetrievedEvent>, b: seq<RetrievedEvent>)
    ensures Ids(a + b) == Ids(a) + Ids(b)
  {
    forall x | x in Ids(a + b) ensures x in Ids(a) + Ids(b)
    {
      var i :| 0 <= i < |a + b| && (a + b)[i].id == x;
      if i >= |a| { assert b[i - |a|].id == x; }
    }
    forall x | x in Ids(a) + Ids(b) ensures x in Ids(a + b)
    {
      if x in Ids(a) {
        var i :| 0 <= i < |a| && a[i].id == x;
        assert (a + b)[i].id == x;
      } else {
        var i :| 0 <= i < |b| && b[i].id == x;
        assert (a + b)[|a| + i].id == x;
      }
    }
  }

  /** The hits of one search whose id was not among the events before that search. */
  function NewHits(hits: seq<RetrievedEvent>, existing: set<string>): (r: seq<RetrievedEvent>)
    ensures |r| <= |hits|
    ensures forall i :: 0 <= i < |r| ==> r[i].id !in existing && r[i] in hits
  {
    if hits == [] then []
    else
      var init := NewHits(hits[..|hits| - 1], existing);
      var last := hits[|hits| - 1];
      assert forall e :: e in hits[..|hits| - 1] ==> e in hits;
      if last.id in existing then init else init + [last]
  }

  /** The events after merging each search's hits in turn, the id snapshot taken before each search. */
  function Merged(base: seq<RetrievedEvent>, searches: seq<seq<RetrievedEvent>>): seq<RetrievedEvent>
  {
    if searches == [] then base
    else
      var before := Merged(base, searches[..|searches| - 1]);
      before + NewHits(searches[|searches| - 1], Ids(before))
  }

  /** The results of `search(keyword)` for each searched keyword. */
  function SearchResults(keywords: seq<string>, search: string -> seq<RetrievedEvent>): (r: seq<seq<RetrievedEvent>>)
    ensures |r| == |keywords| && forall i :: 0 <= i < |keywords| ==> r[i] == search(keywords[i])
  {
    seq(|keywords|, i requires 0 <= i < |keywords| => search(keywords[i]))
  }

  /**
   * The merge loop of `_retrieve_events`: `base` is the range query's
   * result, `keywords` the searched keywords (`keywords[:3]`).
   */
  method MergeSearchHits(base: seq<RetrievedEvent>, keywords: seq<string>, search: string -> seq<RetrievedEvent>)
    returns (events: seq<RetrievedEvent>)
    ensures events == Merged(base, SearchResults(keywords, search))
  {
    events := base;
    ghost var done: seq<seq<RetrievedEvent>> := [];
    for k := 0 to |keywords|
      invariant done == SearchResults(keywords[..k], search)
      invariant events == Merged(base, done)
    {
      var results := search(keywords[k]);
      var existing := set i | 0 <= i < |events| :: events[i].id;
      ghost var before := events;
      for j := 0 to |results|
        invariant events == before + NewHits(results[..j], existing)
      {
        assert results[..j + 1][..j] == results[..j];
        if results[j].id !in existing {
          events := events + [results[j]];
        }
      }
      assert results[..|results|] == results;
      assert keywords[..k + 1][..k] == keywords[..k];
      done := done + [results];
      assert done[..|done| - 1] == SearchResults(keywords[..k], search);
    }
    assert keywords[..|keywords|] == keywords;
  }

  /** The range query's events stay first and in order. */
  lemma {:induction false} MergedKeepsBase(base: seq<RetrievedEvent>, searches: seq<seq<RetrievedEvent>>)
    ensures |Merged(base, searches)| >= |base| && Merged(base, searches)[..|base|] == base
  {
    if searches != [] {
      MergedKeepsBase(base, searches[..|searches| - 1]);
    }
  }

  function TotalHits(searches: seq<seq<RetrievedEvent>>): nat
  {
    if searches == [] then 0 else TotalHits(searches[..|searches| - 1]) + |searches[|searches| - 1]|
  }

  /** Merging adds at most the hits returned. */
  lemma {:induction false} MergedSize(base: seq<RetrievedEvent>, searches: seq<seq<RetrievedEvent>>)
    ensures |Merged(base, searches)| <= |base| + TotalHits(searches)
  {
    if searches != [] {
      MergedSize(base, searches[..|searches| - 1]);
    }
  }

  lemma {:induction false} TotalHitsBound(searches: seq<seq<RetrievedEvent>>, limit: nat)
    requires forall i :: 0 <= i < |searches| ==> |searches[i]| <= limit
    ensures TotalHits(searches) <= |searches| * limit
  {
    if searches != [] {
      var init := searches[..|searches| - 1];
      assert forall i :: 0 <= i < |init| ==> init[i] == searches[i];
      TotalHitsBound(init, limit);
    }
  }

  /** With the query limits (500 events, three keywords, 50 hits each) at most 650 events come back. */
  lemma MergedBound(base: seq<RetrievedEvent>, keywords: seq<string>, search: string -> seq<RetrievedEvent>)
    requires |base| <= 500 && |keywords| <= 3
    requires forall k :: |search(k)| <= 50
    ensures |Merged(base, SearchResults(keywords, search))| <= 500 + 3 * 50
  {
    var searches := SearchResults(keywords, search);
    MergedSize(base, searches);
    TotalHitsBound(searches, 50);
  }

  /** Every id of a hit ends up among the merged events, and no other id appears. */
  lemma {:induction false} MergedIds(base: seq<RetrievedEvent>, searches: seq<seq<RetrievedEvent>>)
    ensures Ids(Merged(base, searches)) == Ids(base) + AllHitIds(searches)
  {
    if searches != [] {
      var init := searches[..|searches| - 1];
      var hits := searches[|searches| - 1];
      MergedIds(base, init);
      var before := Merged(base, init);
      IdsAppend(before, NewHits(hits, Ids(before)));
      NewHitsIds(hits, Ids(before));
    }
  }

  function AllHitIds(searches: seq<seq<RetrievedEvent>>): set<string>
  {
    if searches == [] then {} else AllHitIds(searches[..|searches| - 1]) + Ids(searches[|searches| - 1])
  }

  lemma {:induction false} NewHitsIds(hits: seq<RetrievedEvent>, existing: set<string>)
    ensures existing + Ids(NewHits(hits, existing)) == existing + Ids(hits)
  {
    if hits != [] {
      var init := hits[..|hits| - 1];
      var last := hits[|hits| - 1];
      NewHitsIds(init, existing);
      IdsAppend(init, [last]);
      assert hits == init + [last];
      if last.id !in existing {
        IdsAppend(NewHits(init, existing), [last]);
      }
    }
  }

  predicate DistinctIds(events: seq<RetrievedEvent>)
  {
    forall i, j :: 0 <= i < j < |events| ==> events[i].id != events[j].id
  }

  lemma {:induction false} NewHitsDistinct(hits: seq<RetrievedEvent>, existing: set<string>)
    requires DistinctIds(hits)
    ensures DistinctIds(NewHits(hits, existing))
    ensures forall i :: 0 <= i < |NewHits(hits, existing)| ==> NewHits(hits, existing)[i].id in Ids(hits)
  {
    if hits != [] {
      var init := hits[..|hits| - 1];
      var last := hits[|hits| - 1];
      assert DistinctIds(init);
      NewHitsDistinct(init, existing);
      assert last.id !in Ids(init);
      forall x | x in Ids(init) ensures x in Ids(hits)
      {
        var i :| 0 <= i < |init| && init[i].id == x;
        assert hits[i].id == x;
      }
      assert last.id in Ids(hits) by { assert hits[|hits| - 1].id == last.id; }
    }
  }

  /**
   * Without duplicates inside the range result and inside each search's
   * hits, the merged list has no duplicate id. (Duplicates inside one
   * search's hits are all appended: the id set is taken before the search.)
   */
  lemma {:induction false} MergedDistinct(base: seq<RetrievedEvent>, searches: seq<seq<RetrievedEvent>>)
    requires DistinctIds(base)
    requires forall i :: 0 <= i < |searches| ==> DistinctIds(searches[i])
    ensures DistinctIds(Merged(base, searches))
  {
    if searches != [] {
      var init := searches[..|searches| - 1];
      var hits := searches[|searches| - 1];
      assert forall i :: 0 <= i < |init| ==> init[i] == searches[i];
      MergedDistinct(base, init);
      var before := Merged(base, init);
      var added := NewHits(hits, Ids(before));
      NewHitsDistinct(hits, Ids(before));
      var all := before + added;
      forall i, j | 0 <= i < j < |all| ensures all[i].id != all[j].id
      {
        if j >= |before| && i < |before| {
          assert all[j] == added[j - |before|];
          assert all[i].id in Ids(before);
        } else if i >= |before| {
          assert all[i] == added[i - |before|] && all[j] == added[j - |before|];
        }
      }
    }
  }

  /** Two searches returning the same event add it once. */
  lemma SameHitTwice(base: seq<RetrievedEvent>, e: RetrievedEvent)
    requires e.id !in Ids(base)
    ensures Merged(base, [[e], [e]]) == base + [e]
  {
    var searches := [[e], [e]];
    assert [e][..0] == [];
    assert NewHits([e], Ids(base)) == [e];
    assert searches[..1] == [[e]];
    assert [[e]][..0] == [];
    assert Merged(base, [[e]]) == base + [e];
    IdsAppend(base, [e]);
    assert e.id in Ids([e]) by { assert [e][0].id == e.id; }
    assert NewHits([e], Ids(base + [e])) == [];
  }

  // ---------------------------------------------------------------------
  // _build_context

  function EventTypeOf(e: RetrievedEvent): string { e.eventType }

  /** `by_type`: the events of each type, types in order of first appearance. */
  function GroupByType(events: seq<RetrievedEvent>): seq<(string, seq<RetrievedEvent>)>
  {
    GroupBy(events, EventTypeOf)
  }

  /**
   * Each type section lists its type once, with exactly the events of that
   * type in list order, and every type of the events has a section.
   */
  lemma GroupByTypeSpec(events: seq<RetrievedEvent>, i: nat)
    requires i < |GroupByType(events)|
    ensures GroupByType(events)[i].1 == WithKey(events, EventTypeOf, GroupByType(events)[i].0)
    ensures forall j :: 0 <= j < |GroupByType(events)| && j != i ==> GroupByType(events)[j].0 != GroupByType(events)[i].0
    ensures GroupKeys(GroupByType(events)) == KeysOf(events, EventTypeOf)
  {
    GroupAt(events, EventTypeOf, i);
    GroupBySpec(events, EventTypeOf);
    forall j | 0 <= j < |GroupByType(events)| && j != i
      ensures GroupByType(events)[j].0 != GroupByType(events)[i].0
    {
      if j < i { DistinctKeysAt(GroupByType(events), j, i); } else { DistinctKeysAt(GroupByType(events), i, j); }
    }
  }

  function TimestampText(e: RetrievedEvent): string
  {
    if e.timestamp.Some? then e.timestamp.value else "None"
  }

  function CoordinateText(x: Option<real>): string
  {
    if x.Some? then RealRepr(x.value) else "None"
  }

  /** One bullet line of the context for an event of type `t`. */
  function EventLine(t: string, e: RetrievedEvent, dumps: Dict -> string): (line: string)
    ensures StartsWith(line, "- ")
  {
    var p := e.payload;
    var body :=
      if t == "geo" then
        "Координаты (" + CoordinateText(e.latitude) + ", " + CoordinateText(e.longitude) + ")"
      else if t == "purchase" then
        PyStr(Get(p, "item", JStr(""))) + " - " + PyStr(Get(p, "amount", JInt(0))) + " руб. ("
        + PyStr(Get(p, "place", JStr(""))) + ")"
      else if t == "social" then
        var action := if e.eventSubtype != "" then e.eventSubtype else PyStr(Get(p, "action", JStr("")));
        var name := Get(p, "person_name", JStr(""));
        var person := if Truthy(name) then PyStr(name) else PyStr(Get(p, "person_id", JStr("")));
        action + " с " + person
      else
        Take(dumps(p), 100);
    "- " + TimestampText(e) + ": " + body
  }

  function EventLines(t: string, events: seq<RetrievedEvent>, dumps: Dict -> string): (lines: seq<string>)
    ensures |lines| == |events|
    ensures forall i :: 0 <= i < |events| ==> lines[i] == EventLine(t, events[i], dumps)
  {
    seq(|events|, i requires 0 <= i < |events| => EventLine(t, events[i], dumps))
  }

  function GroupHeader(t: string, count: nat): string
  {
    "\n### " + Upper(t) + " (" + NatToString(count) + ")"
  }

  /** Each group: its header, then the lines of its first ten events. */
  function GroupParts(groups: seq<(string, seq<RetrievedEvent>)>, dumps: Dict -> string): seq<string>
  {
    if groups == [] then []
    else
      var (t, es) := groups[|groups| - 1];
      GroupParts(groups[..|groups| - 1], dumps) + [GroupHeader(t, |es|)] + EventLines(t, Take(es, 10), dumps)
  }

  function EventsHeader(count: nat): string
  {
    "## События (" + NatToString(count) + " записей)"
  }

  function EventParts(events: seq<RetrievedEvent>, dumps: Dict -> string): seq<string>
  {
    if events == [] then [] else [EventsHeader(|events|)] + GroupParts(GroupByType(events), dumps)
  }

  function PersonLine(p: Dict): (line: string)
    ensures StartsWith(line, "- ")
  {
    "- " + PyStr(Get(p, "name", JStr("Unknown"))) + " (" + PyStr(Get(p, "email", JStr(""))) + ")"
  }

  function PersonLines(people: seq<Dict>): (lines: seq<string>)
    ensures |lines| == |people| && forall i :: 0 <= i < |people| ==> lines[i] == PersonLine(people[i])
  {
    seq(|people|, i requires 0 <= i < |people| => PersonLine(people[i]))
  }

  function PeopleParts(people: seq<Dict>): seq<string>
  {
    if people == [] then [] else ["\n## Люди (" + NatToString(|people|) + ")"] + PersonLines(people)
  }

  function PatternLine(p: Dict): (line: string)
    ensures StartsWith(line, "- ")
  {
    "- " + PyStr(Get(p, "name", JNull)) + ": " + PyStr(Get(p, "description", JNull))
  }

  function PatternLines(patterns: seq<Dict>): (lines: seq<string>)
    ensures |lines| == |patterns| && forall i :: 0 <= i < |patterns| ==> lines[i] == PatternLine(patterns[i])
  {
    seq(|patterns|, i requires 0 <= i < |patterns| => PatternLine(patterns[i]))
  }

  /** The first five patterns are listed. */
  function PatternParts(patterns: seq<Dict>): seq<string>
  {
    if patterns == [] then []
    else
      var shown := Take(patterns, 5);
      ["\n## Известные паттерны (" + NatToString(|patterns|) + ")"] + PatternLines(shown)
  }

  function ContextParts(events: seq<RetrievedEvent>, people: seq<Dict>, patterns: seq<Dict>, dumps: Dict -> string): seq<string>
  {
    EventParts(events, dumps) + PeopleParts(people) + PatternParts(patterns)
  }

  /** The lines of one type's section after its header. */
  method TypeLines(t: string, shown: seq<RetrievedEvent>, dumps: Dict -> string) returns (lines: seq<string>)
    ensures lines == EventLines(t, shown, dumps)
  {
    lines := [];
    for k := 0 to |shown|
      invariant lines == EventLines(t, shown[..k], dumps)
    {
      lines := lines + [EventLine(t, shown[k], dumps)];
      assert EventLines(t, shown[..k + 1], dumps) == EventLines(t, shown[..k], dumps) + [EventLine(t, shown[k], dumps)];
    }
    assert shown[..|shown|] == shown;
  }

  /** The per-type sections, in `by_type` order. */
  method GroupSections(byType: seq<(string, seq<RetrievedEvent>)>, dumps: Dict -> string) returns (parts: seq<string>)
    ensures parts == GroupParts(byType, dumps)
  {
    parts := [];
    for g := 0 to |byType|
      invariant parts == GroupParts(byType[..g], dumps)
    {
      var (t, typeEvents) := byType[g];
      var lines := TypeLines(t, Take(typeEvents, 10), dumps);
      parts := parts + [GroupHeader(t, |typeEvents|)] + lines;
      assert byType[..g + 1][..g] == byType[..g];
    }
    assert byType[..|byType|] == byType;
  }

  /** The person lines of the context. */
  method ListPeople(people: seq<Dict>) returns (lines: seq<string>)
    ensures lines == PersonLines(people)
  {
    lines := [];
    for k := 0 to |people|
      invariant |lines| == k && forall i :: 0 <= i < k ==> lines[i] == PersonLine(people[i])
    {
      lines := lines + [PersonLine(people[k])];
    }
  }

  /** The pattern lines of the context. */
  method ListPatterns(patterns: seq<Dict>) returns (lines: seq<string>)
    ensures lines == PatternLines(patterns)
  {
    lines := [];
    for k := 0 to |patterns|
      invariant |lines| == k && forall i :: 0 <= i < k ==> lines[i] == PatternLine(patterns[i])
    {
      lines := lines + [PatternLine(patterns[k])];
    }
  }

  /** `_build_context`: the parts joined with newlines. */
  method BuildContext(events: seq<RetrievedEvent>, people: seq<Dict>, patterns: seq<Dict>, dumps: Dict -> string)
    returns (context: string)
    ensures context == Join(ContextParts(events, people, patterns, dumps), "\n")
  {
    var eventParts: seq<string> := [];
    if events != [] {
      var byType := GroupElements(events, EventTypeOf);
      var sections := GroupSections(byType, dumps);
      eventParts := [EventsHeader(|events|)] + sections;
    }
    var peopleParts: seq<string> := [];
    if people != [] {
      var lines := ListPeople(people);
      peopleParts := ["\n## Люди (" + NatToString(|people|) + ")"] + lines;
    }
    var patternParts: seq<string> := [];
    if patterns != [] {
      var lines := ListPatterns(Take(patterns, 5));
      patternParts := ["\n## Известные паттерны (" + NatToString(|patterns|) + ")"] + lines;
    }
    context := Join(eventParts + peopleParts + patternParts, "\n");
  }


  /** The context names every type once, with its full count, and shows at most ten of its events. */
  lemma {:induction false} GroupPartsSize(groups: seq<(string, seq<RetrievedEvent>)>, dumps: Dict -> string)
    ensures |GroupParts(groups, dumps)| <= 11 * |groups|
  {
    if groups != [] {
      GroupPartsSize(groups[..|groups| - 1], dumps);
    }
  }

  // ---------------------------------------------------------------------
  // _generate_simple_answer

  const NoEventsMessage: string := "К сожалению, " + "за указанный период не найдено подходящих событий."

  function FoundMessage(count: nat): string
  {
    "Найдено " + NatToString(count) + " событий за указанный период. Для подробного анализа настройте AI API (Gemini или OpenAI)."
  }

  /** The number of lines starting with "- ". */
  function CountBullets(lines: seq<string>): (n: nat)
    ensures n <= |lines|
    ensures n == 0 <==> forall i :: 0 <= i < |lines| ==> !StartsWith(lines[i], "- ")
  {
    if lines == [] then 0
    else
      var rest := CountBullets(lines[1..]);
      assert forall i :: 1 <= i < |lines| ==> lines[i] == lines[1..][i - 1];
      (if StartsWith(lines[0], "- ") then 1 else 0) + rest
  }

  /** `_generate_simple_answer` as written: counts every bullet line of the context. */
  function SimpleAnswerAsWritten(context: string): (answer: string)
    ensures answer == NoEventsMessage <==> CountBullets(Split(context, '\n')) == 0
    ensures answer != NoEventsMessage ==> answer == FoundMessage(CountBullets(Split(context, '\n')))
  {
    var count := CountBullets(Split(context, '\n'));
    if count == 0 then NoEventsMessage
    else
      assert FoundMessage(count)[0] == 'Н';
      assert NoEventsMessage[0] == 'К';
      FoundMessage(count)
  }

  /**
   * Person and pattern lines are bullets too, so a context with no events
   * but with a known pattern reports events found.
   */
  lemma SimpleAnswerCountsPatternLines(pattern: Dict, dumps: Dict -> string)
    ensures SimpleAnswerAsWritten(Join(ContextParts([], [], [pattern], dumps), "\n")) != NoEventsMessage
  {
    var parts := ContextParts([], [], [pattern], dumps);
    assert parts[1] == PatternLine(pattern);
    SplitJoinKeepsPrefix(parts, 1, "- ", '\n');
  }

  /** The same for a resolved person: no events, one person, and the answer still reports events. */
  lemma SimpleAnswerCountsPersonLines(person: Dict, dumps: Dict -> string)
    ensures SimpleAnswerAsWritten(Join(ContextParts([], [person], [], dumps), "\n")) != NoEventsMessage
  {
    var parts := ContextParts([], [person], [], dumps);
    assert parts[1] == PersonLine(person);
    SplitJoinKeepsPrefix(parts, 1, "- ", '\n');
  }

  /** The fallback answer as intended: it reports the number of retrieved events. */
  function SimpleAnswer(events: seq<RetrievedEvent>): (answer: string)
    ensures answer == NoEventsMessage <==> events == []
    ensures events != [] ==> answer == FoundMessage(|events|)
  {
    if events == [] then NoEventsMessage
    else
      assert FoundMessage(|events|)[0] == 'Н';
      assert NoEventsMessage[0] == 'К';
      FoundMessage(|events|)
  }

  // ---------------------------------------------------------------------
  // _generate_answer

  /** The answer and reasoning `_generate_answer` returns (reasoning JNull is Python's None). */
  datatype Answer = Answer(answer: Json, reasoning: Json)

  /**
   * `_generate_answer`: without a client the fallback answer; after an
   * exception an error text; otherwise the `{...}` span of the reply decoded
   * with `loads` (None for a JSONDecodeError), its "answer" defaulting to the
   * whole reply, or the whole reply when there is no span or it does not decode.
   */
  function GenerateAnswer(events: seq<RetrievedEvent>, reply: ModelReply, loads: string -> Option<Dict>): (r: Answer)
    ensures reply.NoClient? ==> r == Answer(JStr(SimpleAnswer(events)), JNull)
    ensures reply.Raised? ==> r == Answer(JStr("Ошибка при генерации ответа: " + reply.message), JNull)
    ensures reply.Replied? && SpanText(reply.text, '{', '}').None? ==> r == Answer(JStr(reply.text), JNull)
    ensures reply.Replied? && SpanText(reply.text, '{', '}').Some? ==>
              var decoded := loads(SpanText(reply.text, '{', '}').value);
              (decoded.None? ==> r == Answer(JStr(reply.text), JNull))
              && (decoded.Some? ==> r == Answer(Get(decoded.value, "answer", JStr(reply.text)),
                                                Get(decoded.value, "reasoning", JNull)))
  {
    match reply
    case NoClient => Answer(JStr(SimpleAnswer(events)), JNull)
    case Raised(message) => Answer(JStr("Ошибка при генерации ответа: " + message), JNull)
    case Replied(text) =>
      var span := SpanText(text, '{', '}');
      if span.None? then Answer(JStr(text), JNull)
      else
        var decoded := loads(span.value);
        if decoded.None? then Answer(JStr(text), JNull)
        else Answer(Get(decoded.value, "answer", JStr(text)), Get(decoded.value, "reasoning", JNull))
  }

  /** A reply that is exactly a JSON object with an answer yields that answer. */
  lemma ObjectReply(events: seq<RetrievedEvent>, text: string, loads: string -> Option<Dict>, d: Dict, a: string)
    requires |text| >= 2 && text[0] == '{' && text[|text| - 1] == '}'
    requires loads(text) == Some(d) && HasKey(d, "answer") && Lookup(d, "answer") == Some(JStr(a))
    ensures GenerateAnswer(events, Replied(text), loads).answer == JStr(a)
  {
    WholeSpan(text, '{', '}');
  }

  // ---------------------------------------------------------------------
  // _extract_locations

  datatype Location = Location(lat: real, lon: real, timestamp: Option<string>)

  /** `if lat and lon`: both present and non-zero. */
  predicate HasCoordinates(e: RetrievedEvent)
  {
    e.latitude.Some? && e.latitude.value != 0.0 && e.longitude.Some? && e.longitude.value != 0.0
  }

  /** The de-duplication key `f"{round(lat, 4)},{round(lon, 4)}"`, with `round4` standing for the rounding. */
  function LocationKey(l: Location, round4: real -> real): (real, real)
  {
    (round4(l.lat), round4(l.lon))
  }

  function LocationOf(e: RetrievedEvent): Location
    requires HasCoordinates(e)
  {
    Location(e.latitude.value, e.longitude.value, e.timestamp)
  }

  /** The locations before the `[:20]` cut, with the keys seen so far. */
  function UniqueLocations(events: seq<RetrievedEvent>, round4: real -> real): (r: (seq<Location>, set<(real, real)>))
    ensures r.1 == set i | 0 <= i < |r.0| :: LocationKey(r.0[i], round4)
  {
    if events == [] then ([], {})
    else
      var prev := UniqueLocations(events[..|events| - 1], round4);
      var e := events[|events| - 1];
      if HasCoordinates(e) && LocationKey(LocationOf(e), round4) !in prev.1 then
        var locs := prev.0 + [LocationOf(e)];
        assert (set i | 0 <= i < |locs| :: LocationKey(locs[i], round4))
               == prev.1 + {LocationKey(LocationOf(e), round4)} by {
          assert forall i :: 0 <= i < |prev.0| ==> locs[i] == prev.0[i];
          assert locs[|prev.0|] == LocationOf(e);
        }
        (locs, prev.1 + {LocationKey(LocationOf(e), round4)})
      else prev
  }

  /** `_extract_locations`. */
  method ExtractLocations(events: seq<RetrievedEvent>, round4: real -> real) returns (locations: seq<Location>)
    ensures locations == Take(UniqueLocations(events, round4).0, 20)
  {
    var all: seq<Location> := [];
    var seen: set<(real, real)> := {};
    for i := 0 to |events|
      invariant (all, seen) == UniqueLocations(events[..i], round4)
    {
      assert events[..i + 1][..i] == events[..i];
      var e := events[i];
      if e.latitude.Some? && e.latitude.value != 0.0 && e.longitude.Some? && e.longitude.value != 0.0 {
        var key := (round4(e.latitude.value), round4(e.longitude.value));
        if key !in seen {
          seen := seen + {key};
          all := all + [Location(e.latitude.value, e.longitude.value, e.timestamp)];
        }
      }
    }
    assert events[..|events|] == events;
    locations := Take(all, 20);
  }

  predicate DistinctKeysOf(locs: seq<Location>, round4: real -> real)
  {
    forall i, j :: 0 <= i < j < |locs| ==> LocationKey(locs[i], round4) != LocationKey(locs[j], round4)
  }

  /** No two returned locations share a rounded key. */
  lemma {:induction false} LocationKeysDistinct(events: seq<RetrievedEvent>, round4: real -> real)
    ensures DistinctKeysOf(UniqueLocations(events, round4).0, round4)
  {
    if events != [] {
      var prev := UniqueLocations(events[..|events| - 1], round4);
      LocationKeysDistinct(events[..|events| - 1], round4);
      var locs := UniqueLocations(events, round4).0;
      forall i, j | 0 <= i < j < |locs| ensures LocationKey(locs[i], round4) != LocationKey(locs[j], round4)
      {
        assert locs[i] == prev.0[i];
        if j < |prev.0| {
          assert locs[j] == prev.0[j];
          assert LocationKey(prev.0[i], round4) != LocationKey(prev.0[j], round4);
        } else {
          var e := events[|events| - 1];
          assert HasCoordinates(e) && LocationKey(LocationOf(e), round4) !in prev.1;
          assert locs[j] == LocationOf(e);
          assert LocationKey(prev.0[i], round4) in prev.1;
        }
      }
    }
  }

  /** Every event with coordinates has its key among the seen keys. */
  lemma {:induction false} LocationsCoverEvents(events: seq<RetrievedEvent>, round4: real -> real, k: nat)
    requires k < |events| && HasCoordinates(events[k])
    ensures LocationKey(LocationOf(events[k]), round4) in UniqueLocations(events, round4).1
  {
    var init := events[..|events| - 1];
    if k < |init| {
      assert init[k] == events[k];
      LocationsCoverEvents(init, round4, k);
    }
  }

  /**
   * Every returned location is the coordinates and time of the first event
   * that has coordinates with its rounded key: no earlier event shares the key.
   */
  lemma {:induction false} LocationsFromEvents(events: seq<RetrievedEvent>, round4: real -> real, i: nat)
    requires i < |UniqueLocations(events, round4).0|
    ensures var loc := UniqueLocations(events, round4).0[i];
      exists k :: 0 <= k < |events| && HasCoordinates(events[k]) && loc == LocationOf(events[k])
                  && forall j :: 0 <= j < k && HasCoordinates(events[j]) ==>
                       LocationKey(LocationOf(events[j]), round4) != LocationKey(loc, round4)
  {
    var init := events[..|events| - 1];
    var prev := UniqueLocations(init, round4);
    var loc := UniqueLocations(events, round4).0[i];
    if i < |prev.0| {
      assert loc == prev.0[i];
      LocationsFromEvents(init, round4, i);
      var k :| 0 <= k < |init| && HasCoordinates(init[k]) && prev.0[i] == LocationOf(init[k])
               && forall j :: 0 <= j < k && HasCoordinates(init[j]) ==>
                    LocationKey(LocationOf(init[j]), round4) != LocationKey(prev.0[i], round4);
      assert events[k] == init[k];
      assert forall j :: 0 <= j < k ==> events[j] == init[j];
    } else {
      var k := |events| - 1;
      assert HasCoordinates(events[k]) && loc == LocationOf(events[k]);
      assert LocationKey(loc, round4) !in prev.1;
      forall j | 0 <= j < k && HasCoordinates(events[j])
        ensures LocationKey(LocationOf(events[j]), round4) != LocationKey(loc, round4)
      {
        assert init[j] == events[j];
        LocationsCoverEvents(init, round4, j);
      }
    }
  }


  // ---------------------------------------------------------------------
  // _extract_people

  /** `people_map[person_id]`: the last record with that id (later dict entries overwrite earlier ones). */
  function PersonRecord(people: seq<Dict>, id: Json): (r: Option<Dict>)
    ensures r.Some? ==> r.value in people && Get(r.value, "id", JNull) == id
    ensures r.None? <==> forall i :: 0 <= i < |people| ==> Get(people[i], "id", JNull) != id
  {
    if people == [] then None
    else
      var last := people[|people| - 1];
      var init := people[..|people| - 1];
      assert forall i :: 0 <= i < |init| ==> init[i] == people[i];
      if Get(last, "id", JNull) == id then Some(last)
      else
        var r := PersonRecord(init, id);
        assert r.Some? ==> r.value in people by {
          if r.Some? { assert forall x :: x in init ==> x in people; }
        }
        r
  }

  /** The entry for a person: the graph record when resolved, else the id and the payload's name. */
  function PersonEntry(people: seq<Dict>, id: Json, payload: Dict): Dict
  {
    var found := PersonRecord(people, id);
    if found.Some? then found.value
    else [("id", id), ("name", Get(payload, "person_name", JStr("Unknown")))]
  }

  function PersonId(e: RetrievedEvent): Json
  {
    Get(e.payload, "person_id", JNull)
  }

  /** A social event naming a person counts. */
  predicate NamesPerson(e: RetrievedEvent)
  {
    e.eventType == "social" && Truthy(PersonId(e))
  }

  /** The result entries and the ids they were made for, in order. */
  function UniquePeople(events: seq<RetrievedEvent>, people: seq<Dict>): (r: (seq<Dict>, seq<Json>))
    ensures |r.0| == |r.1|
  {
    if events == [] then ([], [])
    else
      var prev := UniquePeople(events[..|events| - 1], people);
      var e := events[|events| - 1];
      if NamesPerson(e) && PersonId(e) !in prev.1 then
        (prev.0 + [PersonEntry(people, PersonId(e), e.payload)], prev.1 + [PersonId(e)])
      else prev
  }

  /** `_extract_people`. */
  method ExtractPeople(events: seq<RetrievedEvent>, people: seq<Dict>) returns (result: seq<Dict>)
    ensures result == UniquePeople(events, people).0
  {
    result := [];
    var seenIds: seq<Json> := [];
    for i := 0 to |events|
      invariant (result, seenIds) == UniquePeople(events[..i], people)
    {
      assert events[..i + 1][..i] == events[..i];
      var e := events[i];
      if e.eventType == "social" {
        var personId := Get(e.payload, "person_id", JNull);
        if Truthy(personId) && personId !in seenIds {
          seenIds := seenIds + [personId];
          var found := PersonRecord(people, personId);
          if found.Some? {
            result := result + [found.value];
          } else {
            result := result + [[("id", personId), ("name", Get(e.payload, "person_name", JStr("Unknown")))]];
          }
        }
      }
    }
    assert events[..|events|] == events;
  }

  predicate Distinct<T(==)>(xs: seq<T>)
  {
    forall i, j :: 0 <= i < j < |xs| ==> xs[i] != xs[j]
  }

  /** Each person id is listed once. */
  lemma {:induction false} PeopleIdsDistinct(events: seq<RetrievedEvent>, people: seq<Dict>)
    ensures Distinct(UniquePeople(events, people).1)
  {
    if events != [] {
      var prev := UniquePeople(events[..|events| - 1], people);
      PeopleIdsDistinct(events[..|events| - 1], people);
      var ids := UniquePeople(events, people).1;
      forall i, j | 0 <= i < j < |ids| ensures ids[i] != ids[j]
      {
        assert ids[i] == prev.1[i];
        if j < |prev.1| {
          assert ids[j] == prev.1[j];
          assert prev.1[i] != prev.1[j];
        } else {
          var e := events[|events| - 1];
          assert NamesPerson(e) && PersonId(e) !in prev.1;
          assert ids[j] == PersonId(e);
          assert prev.1[i] in prev.1;
        }
      }
    }
  }

  /** Every social event naming a person has that person listed. */
  lemma {:induction false} PeopleCoverEvents(events: seq<RetrievedEvent>, people: seq<Dict>, k: nat)
    requires k < |events| && NamesPerson(events[k])
    ensures PersonId(events[k]) in UniquePeople(events, people).1
  {
    var init := events[..|events| - 1];
    if k < |init| {
      assert init[k] == events[k];
      PeopleCoverEvents(init, people, k);
    }
  }

  /** `events[k]` is the first social event naming the person `id`. */
  predicate FirstNaming(events: seq<RetrievedEvent>, k: int, id: Json)
  {
    0 <= k < |events| && NamesPerson(events[k]) && PersonId(events[k]) == id
    && forall j :: 0 <= j < k && NamesPerson(events[j]) ==> PersonId(events[j]) != id
  }

  /** Being the first to name a person survives appending further events. */
  lemma FirstNamingExtends(events: seq<RetrievedEvent>, k: int, id: Json)
    requires events != [] && FirstNaming(events[..|events| - 1], k, id)
    ensures FirstNaming(events, k, id)
  {
    var init := events[..|events| - 1];
    assert forall j :: 0 <= j <= k ==> events[j] == init[j];
  }

  /**
   * Every listed entry was made for the first social event naming that
   * person: the resolved graph record, or the id and that event's person name.
   */
  lemma {:induction false} PeopleFromEvents(events: seq<RetrievedEvent>, people: seq<Dict>, i: nat)
    requires i < |UniquePeople(events, people).1|
    ensures var r := UniquePeople(events, people);
      exists k :: FirstNaming(events, k, r.1[i]) && r.0[i] == PersonEntry(people, r.1[i], events[k].payload)
  {
    var init := events[..|events| - 1];
    var prev := UniquePeople(init, people);
    var r := UniquePeople(events, people);
    if i < |prev.1| {
      assert r.0[i] == prev.0[i] && r.1[i] == prev.1[i];
      PeopleFromEvents(init, people, i);
      var k :| FirstNaming(init, k, prev.1[i]) && prev.0[i] == PersonEntry(people, prev.1[i], init[k].payload);
      FirstNamingExtends(events, k, r.1[i]);
      assert events[k] == init[k];
    } else {
      var k := |events| - 1;
      assert NamesPerson(events[k]) && PersonId(events[k]) == r.1[i]
             && r.0[i] == PersonEntry(people, r.1[i], events[k].payload);
      assert PersonId(events[k]) !in prev.1;
      forall j | 0 <= j < k && NamesPerson(events[j])
        ensures PersonId(events[j]) != r.1[i]
      {
        assert init[j] == events[j];
        PeopleCoverEvents(init, people, j);
      }
      assert FirstNaming(events, k, r.1[i]);
    }
  }

  // ---------------------------------------------------------------------
  // _extract_transactions

  datatype Transaction = Transaction(timestamp: Option<string>, item: Json, amount: Json, place: Json, category: Json)

  predicate IsTransaction(e: RetrievedEvent)
  {
    e.eventType == "purchase" || e.eventType == "transaction"
  }

  function TransactionOf(e: RetrievedEvent): Transaction
  {
    Transaction(e.timestamp, Get(e.payload, "item", JStr("")), Get(e.payload, "amount", JInt(0)),
                Get(e.payload, "place", JStr("")), Get(e.payload, "category", JStr("")))
  }

  /** Every purchase or transaction event, in order, before the `[:50]` cut. */
  function AllTransactions(events: seq<RetrievedEvent>): seq<Transaction>
  {
    if events == [] then []
    else
      var init := AllTransactions(events[..|events| - 1]);
      var e := events[|events| - 1];
      if IsTransaction(e) then init + [TransactionOf(e)] else init
  }

  /** `_extract_transactions`. */
  method ExtractTransactions(events: seq<RetrievedEvent>) returns (transactions: seq<Transaction>)
    ensures transactions == Take(AllTransactions(events), 50)
  {
    var all: seq<Transaction> := [];
    for i := 0 to |events|
      invariant all == AllTransactions(events[..i])
    {
      assert events[..i + 1][..i] == events[..i];
      var e := events[i];
      if e.eventType == "purchase" || e.eventType == "transaction" {
        all := all + [Transaction(e.timestamp, Get(e.payload, "item", JStr("")), Get(e.payload, "amount", JInt(0)),
                                  Get(e.payload, "place", JStr("")), Get(e.payload, "category", JStr("")))];
      }
    }
    assert events[..|events|] == events;
    transactions := Take(all, 50);
  }

  function CountTransactions(events: seq<RetrievedEvent>): nat
  {
    if events == [] then 0
    else CountTransactions(events[..|events| - 1]) + (if IsTransaction(events[|events| - 1]) then 1 else 0)
  }

  /** One transaction per purchase or transaction event. */
  lemma {:induction false} TransactionCount(events: seq<RetrievedEvent>)
    ensures |AllTransactions(events)| == CountTransactions(events)
  {
    if events != [] {
      TransactionCount(events[..|events| - 1]);
    }
  }

  /** Each transaction carries an event's payload fields, or their defaults. */
  lemma {:induction false} TransactionsFromEvents(events: seq<RetrievedEvent>, i: nat)
    requires i < |AllTransactions(events)|
    ensures exists k :: 0 <= k < |events| && IsTransaction(events[k]) && AllTransactions(events)[i] == TransactionOf(events[k])
  {
    var init := events[..|events| - 1];
    if i < |AllTransactions(init)| {
      assert AllTransactions(events)[i] == AllTransactions(init)[i];
      TransactionsFromEvents(init, i);
      var k :| 0 <= k < |init| && IsTransaction(init[k]) && AllTransactions(init)[i] == TransactionOf(init[k]);
      assert events[k] == init[k];
    } else {
      var k := |events| - 1;
      assert IsTransaction(events[k]) && AllTransactions(events)[i] == TransactionOf(events[k]);
    }
  }

  /** A transaction-free event list yields no transactions. */
  lemma {:induction false} NoTransactions(events: seq<RetrievedEvent>)
    requires forall k :: 0 <= k < |events| ==> !IsTransaction(events[k])
    ensures AllTransactions(events) == []
  {
    if events != [] {
      NoTransactions(events[..|events| - 1]);
    }
  }
}
