# Life-Stream and agent core, modelled in Dafny

This project models the deterministic core of a personal-memory and
agent service: the Life-Stream memory query engine, the pattern miner that
turns location and activity history into habits, the event store's row
mapping and statistics, event ingestion and its validation, the A2A
negotiation protocol between agents, the tool-using agent executor, the
agent factory that shapes an agent from a user's profile, the heuristic
personality and biography analysers, the email, resume and LinkedIn
importers, the Kafka event consumer's typing rule, and the graph, taste
graph and GraphQL records.

Each source file has one module. Its pure code is written as datatypes,
functions and lemmas. Where the source changes state in place, the model is
imperative: the event store (`EventStore.ClickHouse`), the negotiation
protocol (`Protocol.A2AProtocol`) and the agent executor
(`Executor.AgentExecutor`) are classes whose methods are proved against
specification functions. The loops that build result lists are `for`
and `while` loops with invariants. These include event merging, context building, the
de-duplicating extractors, the hourly histogram, routine detection, the
statistics fold, the resume and LinkedIn importers, and the email signature
scan.

Four library modules stand in for Python builtins:
- `Wrappers`: Option and Result, and the exceptions the code raises.
- `Json`: decoded JSON values and dicts as association lists, with Python truthiness and `dict.get`.
- `Text`: `split`, `strip`, `join`, `in` and `startswith`, and `str.lower`/`str.upper` on ASCII and Cyrillic letters.
- `Clock`: datetimes as microseconds since the epoch, with weekday and calendar arithmetic.

Whatever the code receives from outside is a parameter of the model:
- the current time;
- query results from ClickHouse, Neo4j and PostgreSQL;
- the text a language model replies with;
- what `json.loads` makes of that text;
- DBSCAN's cluster labels;
- the fresh uuids of agents, negotiations, tool results and insights (the ids of mined patterns and of messages are not modelled);
- `sqrt` and `round`;
- whether the graph matches the user's Person node when the pattern miner stores its insights as habits.

Writes to ClickHouse change the tables of the `EventStore.ClickHouse` object. Writes to the other stores are returned as the records written.

## Model

| member | source | states |
|---|---|---|
| LifeStreamModels.ParseEventType | app/life_stream/models.py:11-20 | `EventType(s)` gives the member whose value is `s`, and nothing when no member has that value |
| LifeStreamModels.ParseEventTypeValue | app/life_stream/models.py:11-20 | parsing a member's own value gives the member back |
| LifeStreamModels.DefaultBase | app/life_stream/models.py:32-37 | a base event has source API and no device; `ts` is the given timestamp, else the clock's |
| LifeStreamModels.NewGeoEvent | app/life_stream/models.py:43-51 | the result is Ok if and only if lat is in [-90, 90], lon in [-180, 180], accuracy and speed are not negative and heading is unset or in [0, 360); a built event keeps the given fields, and otherwise the error is a validation error |
| LifeStreamModels.NewPurchaseEvent | app/life_stream/models.py:54-66 | a purchase is built exactly when the amount is not negative, the currency defaulting to "RUB" |
| LifeStreamModels.NewDiscoveredPattern | app/life_stream/models.py:150-175 | a pattern is built exactly when its confidence is in [0, 1], with frequency 0, one occurrence, active, no location or time pattern and empty data |
| LifeStreamModels.NewMemorySearchQuery | app/life_stream/models.py:178-190 | a query is built exactly when the question has 3 to 500 characters and `max_events` is in 1..1000 (default 100); AI reasoning defaults to on |
| Grouping.WithKey | app/life_stream/workers/pattern_miner.py:237-242 | the values under one key are a subsequence of the input, all with that key |
| Grouping.AddToGroupKeys | app/life_stream/workers/pattern_miner.py:240-242 | adding a value keeps the keys distinct and adds its key to them |
| Grouping.AddToGroupOf | app/life_stream/workers/pattern_miner.py:240-242 | adding a value appends it to its own key's list and changes no other list |
| Grouping.GroupBySpec | app/life_stream/workers/pattern_miner.py:237-242 | grouping gives distinct keys, exactly the keys of the input, and under each key the input's values with that key in input order |
| Grouping.GroupAt | app/life_stream/workers/pattern_miner.py:245 | each group holds every value with its key, and its key occurs in the input |
| Grouping.WithKeyEmpty | app/life_stream/workers/pattern_miner.py:237-242 | a key has no values exactly when no input element has it |
| Grouping.GroupElements | app/life_stream/workers/pattern_miner.py:237-242 | the grouping loop builds exactly the grouping function's result |
| OracleText.BracketSpan | app/life_stream/api/memory.py:390-392 | a span is found exactly when the text has the opening and closing bracket with the last closing one after the first opening one; the span runs from the first opening to the last closing bracket |
| OracleText.SpanText | app/life_stream/workers/pattern_miner.py:338-341 | the span text opens and closes with the brackets and occurs in the reply; there is none exactly when there is no span |
| OracleText.WholeSpan | app/life_stream/workers/pattern_miner.py:338-341 | a reply that is one bracketed value is its own span |
| OracleText.FenceBody | app/ingestion/email_parser.py:112-113 | a reply without an opening fence is kept; a fenced one raises IndexError exactly when it has no newline, and otherwise gives the text after the first line, cut at its last fence |
| OracleText.FencedBody | app/ingestion/resume_parser.py:137-138 | a reply made of a fence line, a body and a closing fence is read as the body, whatever the body holds |
| GraphFacts.FactCount | app/analysis/biography.py:111-116 | the fact count is zero exactly when the four lists are empty |
| GraphFacts.Texts | app/analysis/personality.py:119 | the values can be joined exactly when every record's value (default "") is a string, and then they are those strings in order; otherwise TypeError |
| EventStore.EventToRow | app/life_stream/clickhouse.py:94-139 | the row carries the user, timestamp, type value, source and device id ("" when unset), the coordinates of events that have them, the geo-only columns only for geo events, the class's subtype, and a payload that is the model dump without the excluded common and geo fields |
| EventStore.GeoDumpKeys | app/life_stream/clickhouse.py:113-116 | a geo event's dump lists the four base fields then the six geo fields, heading last |
| EventStore.BaseDumpKeys | app/life_stream/models.py:32-37 | the base fields come first in the dump, in declaration order |
| EventStore.GeoPayload | app/life_stream/clickhouse.py:113-117 | a geo event's payload keeps only `heading`, whose value is the event's |
| EventStore.SubtypePrecedence | app/life_stream/clickhouse.py:120-128 | the subtype is event_subtype, action, metric or activity for the classes that have one, and "" for geo and purchase events |
| EventStore.Rows | app/life_stream/clickhouse.py:73-76 | one row per event, in order, each the event's own row |
| EventStore.Required | app/life_stream/clickhouse.py:330-336 | `pattern[key]` succeeds exactly when the key is present, with its value; KeyError otherwise |
| EventStore.PatternRowOf | app/life_stream/clickhouse.py:330-346 | a row is made exactly when the seven required keys are present; otherwise the KeyError names the first missing key in tuple order (user_id, pattern_type, name, description, confidence, first_seen, last_seen) |
| EventStore.CompleteRow | app/life_stream/clickhouse.py:330-346 | a pattern dict with every required key makes a row |
| EventStore.RowIdentity | app/life_stream/clickhouse.py:331-332 | the row's owner is `str(pattern["user_id"])` and its type `pattern["pattern_type"]` |
| EventStore.RowSchedule | app/life_stream/clickhouse.py:340-341 | the time pattern defaults to "" and the weekly frequency to 0 |
| EventStore.RowCounts | app/life_stream/clickhouse.py:344-345 | occurrences default to 1 and is_active to True |
| EventStore.RowPlace | app/life_stream/clickhouse.py:336-339 | centre and radius default to None and data to an empty dict |
| EventStore.PatternDefaults | app/life_stream/clickhouse.py:340-345 | a pattern without the optional keys gets all the declared defaults |
| EventStore.ClickHouse.InsertEvents | app/life_stream/clickhouse.py:51-91 | an empty batch returns 0 and stores nothing; without a client it raises "ClickHouse not connected"; otherwise it appends one row per event, in order, and returns their number; patterns and insights are unchanged |
| EventStore.ClickHouse.SavePattern | app/life_stream/clickhouse.py:319-349 | without a client it raises; a missing required key raises KeyError and stores nothing; otherwise it appends the pattern's row and returns `str(pattern.get("id", ""))`; events and insights are unchanged |
| EventStore.EachRow | app/life_stream/clickhouse.py:73-76 | the loop builds one row per event, in order |
| EventStore.GetEventStats | app/life_stream/clickhouse.py:503-551 | the total is the sum of the counts, by_type maps each type to its count and formatted bounds, and the overall bounds are the earliest first and latest last timestamps, formatted |
| EventStore.EmptyStats | app/life_stream/clickhouse.py:521-526 | with no rows the total is 0, by_type is empty and both bounds are None |
| EventStore.EarliestFirstIsMinimum | app/life_stream/clickhouse.py:541-542 | the first event is the minimum of the non-null first timestamps, and None exactly when there is none |
| EventStore.LatestLastIsMaximum | app/life_stream/clickhouse.py:543-544 | the last event is the maximum of the non-null last timestamps, and None exactly when there is none |
| EventStore.ByTypeOnePerRow | app/life_stream/clickhouse.py:535-539 | grouped rows have distinct types, so by_type has one entry per row, in row order, each with that row's count and bounds |
| EventStore.ClickHouse.constructor | app/life_stream/clickhouse.py:16-47 | the store starts with no events, patterns or insights, connected exactly when `connect()` has set the client |
| EventStore.ByType | app/life_stream/clickhouse.py:528-539 | the per-type statistics, one entry per event type (stated by EventStore.GetEventStats) |
| Ingest.TypedEvent | app/life_stream/api/ingest.py:126-172 | an unknown type raises the enum's ValueError and an enum value other than geo, purchase, social and health raises "Unsupported event type"; geo needs lat and lon, purchase a non-empty item (amount defaulting to 0), social an action, health a metric and a value, each with its own message; a geo input with lat and lon gives a geo event if and only if its lat, lon, accuracy and speed are in GeoEvent's ranges, and a validation error otherwise; a built event has the input's fields, source API, the input's ts or the clock's, and passes its class's validation |
| Ingest.GeoAcceptedIffInRange | app/life_stream/api/ingest.py:129-138 | a single geo input with lat and lon is accepted if and only if its lat, lon, accuracy and speed are in range (app/life_stream/models.py:43-51); out of range it is answered 400 with the validation error |
| Ingest.GeoOutOfRange | app/life_stream/api/ingest.py:132-138 | a geo input whose latitude is out of range fails the model validation |
| Ingest.PurchaseAmount | app/life_stream/api/ingest.py:142-150 | a purchase with an item is accepted exactly when its amount is missing or not negative |
| Ingest.SingleOutcome | app/life_stream/api/ingest.py:174-189 | the reply is 400 exactly when building the event fails, 500 exactly when it is built but the store has no client, and otherwise success with one event received and stored |
| Ingest.UnsupportedTypesRejected | app/life_stream/api/ingest.py:171-172 | transaction, activity, communication and custom inputs are answered with 400 "Unsupported event type" |
| Ingest.IngestSingleEvent | app/life_stream/api/ingest.py:119-189 | the reply is the outcome above; on success the one typed event is appended with source "api", otherwise the store is unchanged |
| Ingest.IngestEvents | app/life_stream/api/ingest.py:66-116 | an empty batch is answered 400 with no errors listed; without a client 500 "Failed to store events"; otherwise every event is stored with source "api" and the reply counts the batch twice with no errors |
| Ingest.ParseTypeList | app/life_stream/api/ingest.py:212 | a parsed list has one type per piece; a failure is a ValueError |
| Ingest.ParseTypeListSpec | app/life_stream/api/ingest.py:212 | the list parses exactly when every stripped piece is an enum value, each type being the one its piece names; a failure names one of the pieces |
| Ingest.ParseTypeListOk | app/life_stream/api/ingest.py:212 | the list parses if and only if every stripped piece is an enum value |
| Ingest.ParseTypeListAt | app/life_stream/api/ingest.py:212 | each parsed type is the one that its piece, stripped, names |
| Ingest.ParseTypeListHead | app/life_stream/api/ingest.py:212 | the first piece, stripped, gives the first type, and the rest of the list parses on its own to the remaining types |
| Ingest.ParseTypeListErr | app/life_stream/api/ingest.py:212-214 | a parse failure is the ValueError of one of the pieces |
| Ingest.ParseEventTypes | app/life_stream/api/ingest.py:210-214 | an absent or empty parameter means no filter; otherwise one type per comma-separated piece, or a ValueError |
| Ingest.EventTypesStatus | app/life_stream/api/ingest.py:213-214 | the reply is 400 exactly when the parameter does not parse |
| Ingest.ValueTrimmed | app/life_stream/models.py:11-20 | every enum value is non-empty, free of commas and of outer whitespace |
| Ingest.ParseValues | app/life_stream/api/ingest.py:212 | parsing the values of a list of types gives the types back |
| Ingest.EventTypesRoundTrip | app/life_stream/api/ingest.py:210-214 | writing a non-empty list of types comma-separated and parsing the parameter gives the list back |
| MemoryQuery.TimeRuleOf | app/life_stream/api/memory.py:150-184 | the phrase rules are tried in fixed order on the lower-cased question, each rule chosen exactly when its phrase occurs and no earlier one does: "сегодня", "вчера", the Friday phrases, "выходные"/"weekend", "неделю"/"week", "месяц"/"month", and the seven-day default when no phrase occurs |
| MemoryQuery.DaysSinceFriday | app/life_stream/api/memory.py:161-163 | the last Friday lies 1 to 7 days back, never today |
| MemoryQuery.DaysSinceSunday | app/life_stream/api/memory.py:169-170 | the last Sunday lies 0 to 6 days back, and 0 exactly when today is Sunday |
| MemoryQuery.ResolveTimeRange | app/life_stream/api/memory.py:147-184 | both supplied dates are returned unchanged; when one is missing both are ignored and the phrase rule decides |
| MemoryQuery.RangeOrdered | app/life_stream/api/memory.py:153-184 | every rule gives start <= end, and the range ends no later than now except for the weekend asked on a Sunday |
| MemoryQuery.EarlierDayOrdered | app/life_stream/api/memory.py:156-167 | a whole day one or more days back runs from its midnight to its last second, both before now |
| MemoryQuery.WeekendOrdered | app/life_stream/api/memory.py:168-174 | the weekend's start precedes its end, which lies before now unless today is Sunday |
| MemoryQuery.WeekendSpan | app/life_stream/api/memory.py:171-174 | Saturday's midnight precedes Sunday, which precedes Sunday's last second |
| MemoryQuery.DerivedRangeOrdered | app/life_stream/api/memory.py:147-184 | a range taken from the question always has start <= end |
| MemoryQuery.YesterdayRange | app/life_stream/api/memory.py:156-159 | yesterday is one calendar day, the day before today, from 00:00:00 to 23:59:59 |
| MemoryQuery.LastFridayRange | app/life_stream/api/memory.py:160-167 | the Friday range is one whole Friday 1 to 7 days back, 7 exactly when today is Friday |
| MemoryQuery.WeekendRange | app/life_stream/api/memory.py:168-174 | the weekend is Saturday 00:00:00 to the next day, a Sunday, at 23:59:59; the Sunday is today exactly when today is Sunday |
| MemoryQuery.DefaultRange | app/life_stream/api/memory.py:181-184 | a question naming no period gets the seven days up to now |
| MemoryQuery.InferEventTypes | app/life_stream/api/memory.py:227-243 | None exactly when no keyword group matches; otherwise a non-empty set holding geo for place or meal words, purchase for meal or spending words, social for people words and health for health words, and nothing else |
| MemoryQuery.KeepKeywords | app/life_stream/api/memory.py:255 | the kept words are exactly the input's words that are no stop-word and longer than 2 characters |
| MemoryQuery.KeepKeywordsAppend | app/life_stream/api/memory.py:255 | the filter keeps question order: filtering a concatenation concatenates the filtered parts |
| MemoryQuery.ExtractKeywords | app/life_stream/api/memory.py:245-256 | the keywords are exactly the lower-cased whitespace tokens of the question that pass the filter |
| MemoryQuery.SearchedKeywords | app/life_stream/api/memory.py:211 | the searched keywords are the first three keywords, all three when there are that many |
| MemoryQuery.CountPresent | app/life_stream/api/memory.py:419-422 | the number of hedging phrases present is at most their number, and zero exactly when none occurs |
| MemoryQuery.Confidence | app/life_stream/api/memory.py:413-425 | 0.1 without events, otherwise 0.5 plus min(0.5, n/100) minus 0.1 per hedging phrase clamped to [0.1, 0.95]; always in [0.1, 0.95] |
| MemoryQuery.ConfidenceMonotone | app/life_stream/api/memory.py:413-425 | more events never lower the confidence of the same answer |
| MemoryQuery.ConfidenceCeiling | app/life_stream/api/memory.py:413-425 | an unhedged answer with 45 or more events reaches the ceiling 0.95 |
| MemoryQuery.HedgingLowersConfidence | app/life_stream/api/memory.py:419-425 | an answer with at least as many hedging phrases never gets more confidence from the same events |
| MemoryQuery.ConfidenceFloor | app/life_stream/api/memory.py:419-425 | with at most ten events and every hedging phrase, the confidence is the floor 0.1 |
| MemoryContext.IdsAppend | app/life_stream/api/memory.py:220 | the ids of a concatenation are the union of the ids of its parts |
| MemoryContext.NewHits | app/life_stream/api/memory.py:219-223 | the hits added from one search are hits of that search whose id was not present before it |
| MemoryContext.SearchResults | app/life_stream/api/memory.py:211-218 | one result list per searched keyword, in keyword order |
| MemoryContext.MergeSearchHits | app/life_stream/api/memory.py:209-225 | the merge loop yields exactly the merge of the base events with each search's new hits in turn |
| MemoryContext.MergedKeepsBase | app/life_stream/api/memory.py:200-223 | the range query's events stay first, in order |
| MemoryContext.MergedSize | app/life_stream/api/memory.py:219-223 | merging adds at most the number of hits returned |
| MemoryContext.TotalHitsBound | app/life_stream/api/memory.py:211-218 | searches of at most `limit` hits each return at most count times limit hits |
| MemoryContext.MergedBound | app/life_stream/api/memory.py:200-225 | with at most 500 base events, three keywords and 50 hits a search, at most 500 + 3·50 events come back |
| MemoryContext.MergedIds | app/life_stream/api/memory.py:219-223 | the merged ids are exactly the base ids and the ids of every hit |
| MemoryContext.NewHitsIds | app/life_stream/api/memory.py:219-223 | no hit's id is lost: with the ids present before, the added hits cover every hit's id |
| MemoryContext.NewHitsDistinct | app/life_stream/api/memory.py:219-223 | the hits added from a duplicate-free search are duplicate-free and come from that search |
| MemoryContext.MergedDistinct | app/life_stream/api/memory.py:219-223 | a duplicate-free base merged with duplicate-free searches has no id twice |
| MemoryContext.SameHitTwice | app/life_stream/api/memory.py:219-223 | an event returned by two searches is added once |
| MemoryContext.GroupByTypeSpec | app/life_stream/api/memory.py:300-305 | `by_type` has each event type once, exactly the types present, each with its events in input order |
| MemoryContext.EventLine | app/life_stream/api/memory.py:309-328 | every event line is a bullet |
| MemoryContext.EventLines | app/life_stream/api/memory.py:309-328 | one line per shown event, in order |
| MemoryContext.PersonLine | app/life_stream/api/memory.py:334 | each person line is a "- " bullet |
| MemoryContext.PersonLines | app/life_stream/api/memory.py:331-334 | one bullet line per person, in order |
| MemoryContext.PatternLine | app/life_stream/api/memory.py:340 | each pattern line is a "- " bullet |
| MemoryContext.PatternLines | app/life_stream/api/memory.py:337-340 | one bullet line per pattern, in order |
| MemoryContext.TypeLines | app/life_stream/api/memory.py:309-328 | the line loop for one type yields exactly that type's event lines |
| MemoryContext.GroupSections | app/life_stream/api/memory.py:300-328 | the section loop yields the header and first ten event lines of each type, in `by_type` order |
| MemoryContext.ListPeople | app/life_stream/api/memory.py:331-334 | the people loop yields exactly the person lines |
| MemoryContext.ListPatterns | app/life_stream/api/memory.py:337-340 | the pattern loop yields exactly the lines of the listed patterns |
| MemoryContext.BuildContext | app/life_stream/api/memory.py:286-342 | the context is the events header, the per-type sections, the people and the patterns, joined with newlines |
| MemoryContext.GroupPartsSize | app/life_stream/api/memory.py:307-328 | each type contributes its header and at most ten event lines |
| MemoryContext.CountBullets | app/life_stream/api/memory.py:405-406 | the count of bullet lines is at most the line count, and zero exactly when no line starts with "- " |
| MemoryContext.SimpleAnswerAsWritten | app/life_stream/api/memory.py:403-411 | as written, the fallback reports no events exactly when the context has no bullet line, and otherwise reports the bullet count |
| MemoryContext.SimpleAnswerCountsPatternLines | app/life_stream/api/memory.py:403-411 | as written, a context with no events and one pattern is reported as having found events |
| MemoryContext.SimpleAnswerCountsPersonLines | app/life_stream/api/memory.py:403-411 | as written, a context with no events and one person is reported as having found events |
| MemoryContext.SimpleAnswer | app/life_stream/api/memory.py:403-411 | the fallback answer reports no events exactly when none were retrieved, and otherwise their number |
| MemoryContext.GenerateAnswer | app/life_stream/api/memory.py:344-401 | no client gives the fallback; an exception gives the error text; otherwise the "answer" and "reasoning" of the decoded `{…}` span, the whole reply when there is no span or it does not decode |
| MemoryContext.ObjectReply | app/life_stream/api/memory.py:390-398 | a reply that is exactly a JSON object with an answer yields that answer |
| MemoryContext.UniqueLocations | app/life_stream/api/memory.py:427-445 | the seen keys are exactly the rounded keys of the locations kept |
| MemoryContext.ExtractLocations | app/life_stream/api/memory.py:427-445 | the location loop yields the first 20 de-duplicated locations |
| MemoryContext.LocationKeysDistinct | app/life_stream/api/memory.py:436-443 | no two kept locations share a rounded key |
| MemoryContext.LocationsCoverEvents | app/life_stream/api/memory.py:436-443 | every event with non-zero lat and lon has its key among the seen keys |
| MemoryContext.LocationsFromEvents | app/life_stream/api/memory.py:436-443 | every kept location is the coordinates and time of the first event with coordinates whose rounded key it has; no two kept locations share a key |
| MemoryContext.PersonRecord | app/life_stream/api/memory.py:449-463 | a person resolves to a graph record with that id, and to none exactly when no record has it |
| MemoryContext.UniquePeople | app/life_stream/api/memory.py:447-470 | one entry per listed id |
| MemoryContext.ExtractPeople | app/life_stream/api/memory.py:447-470 | the people loop yields exactly the de-duplicated entries |
| MemoryContext.PeopleIdsDistinct | app/life_stream/api/memory.py:458-466 | each person id is listed once |
| MemoryContext.PeopleCoverEvents | app/life_stream/api/memory.py:458-466 | every social event naming a person has that person listed |
| MemoryContext.PeopleFromEvents | app/life_stream/api/memory.py:458-468 | every entry was made for the first social event naming that person: the resolved record, else the id and the payload's name or "Unknown" |
| MemoryContext.ExtractTransactions | app/life_stream/api/memory.py:472-490 | the transaction loop yields the first 50 purchase or transaction events' fields |
| MemoryContext.TransactionCount | app/life_stream/api/memory.py:472-490 | one transaction per purchase or transaction event |
| MemoryContext.TransactionsFromEvents | app/life_stream/api/memory.py:478-488 | each transaction carries an event's payload fields, or their defaults |
| MemoryContext.NoTransactions | app/life_stream/api/memory.py:472-490 | a list with no purchase or transaction event yields no transactions |
| MemoryQuery.RangeFor | app/life_stream/api/memory.py:153-184 | the start and end each time rule gives (stated by MemoryQuery.ResolveTimeRange and MemoryQuery.RangeOrdered) |
| MemoryQuery.WeekendBeforeWeek | app/life_stream/api/memory.py:168-177 | "weekend" contains "week", and the weekend rule is tried first, so a weekend question is a weekend range, not a seven-day one |
| MemoryContext.GroupByType | app/life_stream/api/memory.py:300-305 | the events grouped by type (stated by MemoryContext.GroupByTypeSpec) |
| MemoryContext.ContextParts | app/life_stream/api/memory.py:286-342 | the context lines for events, people and patterns (stated by MemoryContext.BuildContext) |
| PatternMiner.MeanBounds | app/life_stream/workers/pattern_miner.py:165-166 | the mean of the member coordinates lies between any lower and upper bound of them |
| PatternMiner.MaxOf | app/life_stream/workers/pattern_miner.py:173 | `np.max` is a member that no member exceeds |
| PatternMiner.Earliest | app/life_stream/workers/pattern_miner.py:199 | `min(cluster_times)` is a member time no later than any other |
| PatternMiner.Latest | app/life_stream/workers/pattern_miner.py:200 | `max(cluster_times)` is a member time no earlier than any other |
| PatternMiner.UniqueLabels | app/life_stream/workers/pattern_miner.py:153 | `set(labels)` holds each label once, exactly the labels that occur |
| PatternMiner.Members | app/life_stream/workers/pattern_miner.py:160-162 | a cluster's points are as many as the occurrences of its label |
| PatternMiner.Distances | app/life_stream/workers/pattern_miner.py:169-172 | one distance per member: the root of its squared offsets from the centre |
| PatternMiner.BestHourBelow | app/life_stream/workers/pattern_miner.py:178 | the chosen hour has the largest count, and no smaller hour has as large a count |
| PatternMiner.ModalHour | app/life_stream/workers/pattern_miner.py:177-178 | 12 when there are no visit hours; otherwise a visit hour whose count no hour exceeds |
| PatternMiner.NameHint | app/life_stream/workers/pattern_miner.py:180-188 | the buckets are tried in order: 6-9 morning, 10-18 daytime, 19-22 evening, every other hour night |
| PatternMiner.HourDistribution | app/life_stream/workers/pattern_miner.py:205 | one entry per distinct visit hour, in ascending order, each with that hour's count |
| PatternMiner.ClusterConfidence | app/life_stream/workers/pattern_miner.py:195 | a cluster's confidence is min(0.95, 0.5 + n/100), in (0.5, 0.95] for a non-empty cluster |
| PatternMiner.ClusterOf | app/life_stream/workers/pattern_miner.py:159-207 | a cluster carries its label, `occurrences` and `visit_count` equal to its size (at least 1), and first seen no later than last seen |
| PatternMiner.CenterInBox | app/life_stream/workers/pattern_miner.py:165-166 | the centre lies within the members' bounding box |
| PatternMiner.WithinRadius | app/life_stream/workers/pattern_miner.py:169-174 | every member lies within the radius of the centre |
| PatternMiner.RadiusNonNegative | app/life_stream/workers/pattern_miner.py:169-174 | with a square root that is never negative the radius is at least 0 |
| PatternMiner.NonNoise | app/life_stream/workers/pattern_miner.py:155-157 | the labels kept are exactly the labels other than -1 |
| PatternMiner.NonNoiseAscending | app/life_stream/workers/pattern_miner.py:155-157 | skipping noise keeps the labels ascending |
| PatternMiner.MapClusters | app/life_stream/workers/pattern_miner.py:155-208 | one summary per non-noise label, in label order |
| PatternMiner.AnalyzeGeoPatterns | app/life_stream/workers/pattern_miner.py:138-211 | the geo loop yields exactly the geo patterns of the points and their labels |
| PatternMiner.EachCluster | app/life_stream/workers/pattern_miner.py:155-208 | the label loop skips noise and appends the summary of every other label |
| PatternMiner.FewPointsNoPatterns | app/life_stream/workers/pattern_miner.py:138-140 | fewer points than the minimum cluster size give no patterns |
| PatternMiner.OneClusterPerLabel | app/life_stream/workers/pattern_miner.py:153-208 | otherwise exactly one cluster per label other than -1, in ascending label order, each with that label's statistics |
| PatternMiner.ClustersCover | app/life_stream/workers/pattern_miner.py:155-157 | a label has a cluster exactly when it is not noise |
| PatternMiner.ClusterCoverAt | app/life_stream/workers/pattern_miner.py:155-157 | a given label has a cluster exactly when it occurs and is not noise |
| PatternMiner.ClustersAscending | app/life_stream/workers/pattern_miner.py:153-155 | ascending labels give clusters in ascending label order |
| PatternMiner.ClusterIds | app/life_stream/workers/pattern_miner.py:155-208 | the i-th cluster has the i-th non-noise label |
| PatternMiner.ClusterLabels | app/life_stream/workers/pattern_miner.py:155-208 | the i-th cluster is the summary of the i-th non-noise label |
| PatternMiner.SignificantGroups | app/life_stream/workers/pattern_miner.py:245-249 | the qualifying hour groups are exactly those with at least five rows averaging more than ten points, in group order |
| PatternMiner.Routines | app/life_stream/workers/pattern_miner.py:245-277 | ZeroDivisionError exactly when the window has zero whole days and some hour qualifies |
| PatternMiner.AnalyzeTimePatterns | app/life_stream/workers/pattern_miner.py:229-280 | the grouping and routine loops yield exactly the routines of the rows, or the ZeroDivisionError |
| PatternMiner.RoutinesOfGroups | app/life_stream/workers/pattern_miner.py:245-277 | with a non-empty window the routines are one per qualifying group, in group order |
| PatternMiner.RoutinesSignificantLast | app/life_stream/workers/pattern_miner.py:245-277 | a qualifying last group adds its routine after those of the groups before it |
| PatternMiner.RoutineStats | app/life_stream/workers/pattern_miner.py:246-276 | a routine has at least five days averaging more than ten points, confidence min(0.9, 0.4 + n/30) in (0.4, 0.9], the cron "0 h * * *", frequency n per week of the window and first seen no later than last seen |
| PatternMiner.PerWeek | app/life_stream/workers/pattern_miner.py:267 | `n / (days / 7)` is n·7/days |
| PatternMiner.RoutineHours | app/life_stream/workers/pattern_miner.py:237-277 | every routine is that of all rows at its hour, which qualify, and no hour gets two routines |
| PatternMiner.EmptyWindow | app/life_stream/workers/pattern_miner.py:245-267 | an empty window raises exactly when some hour qualifies |
| PatternMiner.AiModel | app/life_stream/workers/pattern_miner.py:358 | the recorded model is Gemini's when its key is set, else OpenAI's |
| PatternMiner.ClientReply | app/life_stream/workers/pattern_miner.py:291-294 | without a client there is no reply; with one the model's reply |
| PatternMiner.InsightItems | app/life_stream/workers/pattern_miner.py:336-347 | nothing to iterate without a reply, without a `[`…`]` span or when decoding fails; otherwise the decoded value when it is iterable |
| PatternMiner.MapObjects | app/life_stream/workers/pattern_miner.py:346-361 | one record per element when every element is a dict; a non-dict raises and the caught error leaves none |
| PatternMiner.InsightsFrom | app/life_stream/workers/pattern_miner.py:346-364 | one insight per element, in order, when every element is a dict, else none |
| PatternMiner.Insights | app/life_stream/workers/pattern_miner.py:291-368 | no insights when the reply yields nothing to iterate; otherwise one per decoded dict |
| PatternMiner.GenerateInsights | app/life_stream/workers/pattern_miner.py:282-368 | the insight loop yields exactly the insights of the reply |
| PatternMiner.EachObject | app/life_stream/workers/pattern_miner.py:347-361 | the element loop maps every dict and ends in `[]` at the first non-dict |
| PatternMiner.InsightDefaults | app/life_stream/workers/pattern_miner.py:351-354 | keys the reply omits default to "habit", "", "" and 0.5 |
| PatternMiner.InsightFromData | app/life_stream/workers/pattern_miner.py:348-360 | keys the reply gives are taken as given; `evidence_count` is the number of geo plus time patterns, the user id and the fresh id are recorded, the range starts 30 days before the first clock reading and ends at the second, so it spans at least 30 days |
| PatternMiner.ArrayReply | app/life_stream/workers/pattern_miner.py:338-361 | a reply that is exactly a JSON array of dicts gives one insight per dict, in order |
| PatternMiner.NonObjectItems | app/life_stream/workers/pattern_miner.py:347-368 | a decoded array holding a non-dict gives no insights |
| PatternMiner.PatternsFound | app/life_stream/workers/pattern_miner.py:92-106 | the found patterns are the geo patterns then the routines, each tagged with the user id |
| PatternMiner.ClusterTagged | app/life_stream/workers/pattern_miner.py:106 | tagging a cluster dict appends the `user_id` key |
| PatternMiner.ClusterRow | app/life_stream/workers/pattern_miner.py:104-107 | a tagged cluster is a complete pattern row with the user id, type location_cluster, its occurrences and radius, and the store's defaults "", 0 and active for the keys it lacks |
| PatternMiner.RoutineTagged | app/life_stream/workers/pattern_miner.py:106 | tagging a routine dict appends the `user_id` key |
| PatternMiner.RoutineRow | app/life_stream/workers/pattern_miner.py:104-107 | a tagged routine is a complete pattern row with the user id, type routine, its cron, weekly frequency and occurrences, active and with no centre or radius |
| PatternMiner.AnalysisOf | app/life_stream/workers/pattern_miner.py:62-116 | the run fails exactly when the routine step raises; otherwise it records the user id, the period from `now - days_back` to `now`, the geo then time patterns tagged with the user id, no insights when no pattern was found, and otherwise the insights of the reply, each tagged with its node id when the graph stored it |
| PatternMiner.SavedRows | app/life_stream/workers/pattern_miner.py:104-107 | one saved row per found pattern, in order |
| PatternMiner.FoundSaveable | app/life_stream/workers/pattern_miner.py:104-107 | every found pattern, once tagged, is a complete row for the store |
| PatternMiner.FoundTagged | app/life_stream/workers/pattern_miner.py:105-106 | every found pattern carries the user's id |
| PatternMiner.RunAnalysis | app/life_stream/workers/pattern_miner.py:62-116 | without a connection the run raises and saves nothing; otherwise its result is the analysis; on success every found pattern is appended to the store in order, and, when the graph has the person, one habit is created per insight and the tagged insights' rows are appended in order; events are unchanged |
| PatternMiner.HabitOf | app/life_stream/workers/pattern_miner.py:375-399 | the Habit is created for the user's Person and takes the insight's id, its title as name, its description, confidence, type and model |
| PatternMiner.Tagged | app/life_stream/workers/pattern_miner.py:402-404 | the stored insight gets `neo4j_node_id`, the id the graph returns, which is its own; nothing else changes |
| PatternMiner.InsightRowOf | app/life_stream/clickhouse.py:408-435 | the insight row holds the insight's user id, node id ("" when unset), type, title, description, no evidence event ids, its evidence count, time range, model, confidence and reasoning |
| PatternMiner.HabitOfTagged | app/life_stream/workers/pattern_miner.py:402-404 | tagging an insight keeps every habit parameter |
| PatternMiner.StoredRowNodeId | app/life_stream/workers/pattern_miner.py:402-405 | the row saved for a stored insight records the created habit's id as its node id |
| PatternMiner.GraphInsights | app/life_stream/workers/pattern_miner.py:109-111 | the returned insights keep their order and are tagged exactly when the graph stored them |
| PatternMiner.SaveInsightToGraph | app/life_stream/workers/pattern_miner.py:370-412 | without the person in the graph nothing is written and the result is None; otherwise the habit is created, the insight tagged and its row appended to the store, and the habit id returned; when the store has no client the row is not written and the result is None; events and patterns are unchanged |
| PatternMiner.SaveInsights | app/life_stream/workers/pattern_miner.py:109-111 | step 5 stores every insight in order: the habits and the appended rows are those of the tagged insights, or none when the graph lacks the person |
| PatternMiner.SaveAll | app/life_stream/workers/pattern_miner.py:104-111 | steps 4 and 5 in order: every pattern row is appended, then the insights are stored as SaveInsights states; events are unchanged |
| EventStore.ClickHouse.SaveInsight | app/life_stream/clickhouse.py:407-435 | without a client it raises and stores nothing; otherwise it appends the insight row and returns the insight's id; events and patterns are unchanged |
| PatternMiner.SavePatterns | app/life_stream/workers/pattern_miner.py:104-107 | the save loop appends exactly the rows of the found patterns |
| PatternMiner.InsightsNeedPatterns | app/life_stream/workers/pattern_miner.py:99-102 | insights are generated only when some pattern was found, and never without a client |
| PatternMiner.PatternsTagged | app/life_stream/workers/pattern_miner.py:99-107 | every found pattern carries the user's id, and every insight's evidence count is the number of patterns found |
| PatternMiner.GeoPatterns | app/life_stream/workers/pattern_miner.py:138-211 | the location clusters found in the points (stated by PatternMiner.AnalyzeGeoPatterns, PatternMiner.FewPointsNoPatterns and PatternMiner.OneClusterPerLabel) |
| PatternMiner.TimePatterns | app/life_stream/workers/pattern_miner.py:229-280 | the routines found in the hourly activity (stated by PatternMiner.AnalyzeTimePatterns, PatternMiner.RoutineHours and PatternMiner.EmptyWindow) |
| PatternMiner.InsightOf | app/life_stream/workers/pattern_miner.py:346-364 | the insight made of one reply object (stated by PatternMiner.InsightFromData) |
| PatternMiner.ClusterDict | app/life_stream/workers/pattern_miner.py:190-207 | the dict of a cluster without its `id` entry (the fields its saved row takes are stated by PatternMiner.ClusterRow) |
| PatternMiner.RoutineDict | app/life_stream/workers/pattern_miner.py:260-276 | the dict of a routine without its `id` entry (the fields its saved row takes are stated by PatternMiner.RoutineRow) |
| AgentModels.DefaultTraits | app/agent/models.py:38-54 | the default personality has every score 0.5, in [0, 1], and no custom traits |
| AgentModels.NewTraits | app/agent/models.py:38-54 | a personality is built exactly when every given score lies in [0, 1]; each of the six scores is the given value or 0.5, with no custom traits; otherwise a validation error |
| AgentModels.TraitsDump | app/agent/models.py:38-54 | the dump has exactly seven entries in declaration order: formality, verbosity, aggressiveness, risk tolerance, price sensitivity and speed priority, each holding that field's value, then custom_traits holding the custom traits as a dict |
| AgentModels.NewUserAgent | app/agent/models.py:57-83 | a new agent is an active assistant with the default personality, no prompt, summary, brands or styles, not fine-tuned and with no training data |
| AgentModels.PlainMessage | app/agent/models.py:86-100 | a message made from a role and content has no tool name, arguments or result and no tokens |
| AgentModels.NewNegotiation | app/agent/models.py:167-194 | a new negotiation has the budget, no asking price and no offer, 0 of 10 rounds, status "negotiating", no terms and no agreement |
| AgentModels.AgentTask.constructor | app/agent/models.py:103-137 | a new task is pending with 0 of 10 iterations, no result, error, messages, start or completion time and no tokens |
| AgentModels.NewExecuteTaskRequest | app/agent/models.py:219-230 | a request is built exactly when `max_iterations` lies in 1..50 (default 10) and the timeout in 30..1800 (default 300) |
| Protocol.Recipient | app/agent/protocol.py:177-183 | the buyer's messages go to the seller and everyone else's to the buyer |
| Protocol.OfferedFields | app/agent/protocol.py:185-189 | an offer becomes current and takes one more round; nothing else changes but the terms, which stay without terms |
| Protocol.OfferedTerms | app/agent/protocol.py:188-189 | the merged terms take each offered term and keep every other earlier one |
| Protocol.Accepted | app/agent/protocol.py:218-229 | accepting fails exactly when there is no current offer or it is 0; otherwise the negotiation is agreed at the current offer with a copy of the terms |
| Protocol.Rejected | app/agent/protocol.py:268 | rejecting sets status "failed" and changes nothing else |
| Protocol.AcceptAfterOffer | app/agent/protocol.py:185-229 | a non-zero offer just made is accepted at its price with the terms so far |
| Protocol.ZeroOfferNotAcceptable | app/agent/protocol.py:218-219 | an offer of 0 cannot be accepted |
| Protocol.RequestMessage | app/agent/protocol.py:146-157 | the opening message is a "request" from buyer to seller in the conversation, expecting an answer and carrying the item and quantity |
| Protocol.OfferMessageFields | app/agent/protocol.py:191-202 | an offer message carries the price, the quantity and the terms (empty when none are given), and expects an answer; it is an "offer" from the buyer and a "counter_offer" from anyone else |
| Protocol.AcceptMessage | app/agent/protocol.py:231-243 | the "accept" goes to the other side, expects no answer and carries the agreed price and terms |
| Protocol.RejectMessage | app/agent/protocol.py:270-277 | the "reject" goes to the other side, expects no answer, carries no offer or payload, and gives the reason only when there is one |
| Protocol.AutoOffersStop | app/agent/protocol.py:315-333 | the auto-negotiation makes at most one offer per round, opening at the start price; every offer but the last is below the acceptable price, and a last offer below it means the rounds ran out |
| Protocol.AutoOffersRise | app/agent/protocol.py:312-333 | starting at or under the budget with a non-negative step, the offers never fall and never exceed the budget |
| Protocol.BuyerOffersShape | app/agent/protocol.py:312-333 | for a non-negative budget the buyer makes 1 to 10 offers, opening at 70% of the budget, non-decreasing and within [0.7·budget, budget], stopping at the first acceptable one |
| Protocol.AutoOutcomeFields | app/agent/protocol.py:315-335 | after the loop the last offer is current, each offer used a round, and the negotiation is agreed at that offer exactly when it is acceptable |
| Protocol.NoDealAboveBudget | app/agent/protocol.py:312-333 | a minimum above a non-negative budget is never met: ten offers, all below it |
| Protocol.OfferMessagesAt | app/agent/protocol.py:317-321 | one offer message per price, in the order of the prices |
| Protocol.AgreedOutcome | app/agent/protocol.py:328-331 | stopping at an acceptable offer agrees on it |
| Protocol.ExhaustedOutcome | app/agent/protocol.py:315-333 | running out of rounds leaves the last offer standing, unagreed |
| Protocol.RoundsUsedUp | app/agent/protocol.py:315 | a loop that leaves without agreeing has made all of the buyer's offers |
| Protocol.AsNumber | app/agent/protocol.py:360-362 | only numbers and booleans compare with a price; anything else raises TypeError |
| Protocol.Decide | app/agent/protocol.py:343-377 | non-offer messages and unknown or zero-budget negotiations are ignored; a price that does not compare raises TypeError; otherwise accept up to the threshold, counter up to the budget, reject above it |
| Protocol.BuyerStaysInBudget | app/agent/protocol.py:355-375 | for a positive budget and a sensitivity in [0, 1] the buyer accepts exactly up to a threshold no higher than the budget, counters exactly between the threshold and the budget and never above 90% of it, and rejects exactly above the budget |
| Protocol.A2AProtocol.constructor | app/agent/protocol.py:33-38 | a new protocol has no negotiations and has sent nothing |
| Protocol.A2AProtocol.SendMessage | app/agent/protocol.py:65-84 | a connected protocol sends the message; an unconnected one raises RuntimeError and sends nothing |
| Protocol.A2AProtocol.GetNegotiationState | app/agent/protocol.py:282-284 | the state of a known conversation, and None for an unknown one |
| Protocol.A2AProtocol.StartNegotiation | app/agent/protocol.py:120-162 | a fresh negotiation is registered under the new id and the opening request is sent; unconnected, the state is registered and the send raises |
| Protocol.A2AProtocol.MakeOffer | app/agent/protocol.py:164-205 | an unknown conversation raises ValueError and changes nothing; otherwise the state records the offer and the offer message is sent |
| Protocol.A2AProtocol.AcceptOffer | app/agent/protocol.py:207-248 | an unknown conversation or a missing offer raises ValueError and changes nothing; otherwise the state is agreed and the "accept" is sent |
| Protocol.A2AProtocol.RejectOffer | app/agent/protocol.py:250-280 | an unknown conversation raises ValueError and changes nothing; otherwise the state fails and the "reject" is sent |
| Protocol.A2AProtocol.AutoNegotiate | app/agent/protocol.py:288-335 | the negotiation is opened, the buyer's offers are sent in order after the request, and the final state is the outcome of those offers |
| Protocol.A2AProtocol.OfferRounds | app/agent/protocol.py:315-333 | the while loop sends exactly the buyer's offers and leaves the negotiation at their outcome, no other negotiation changing |
| Protocol.A2AProtocol.OfferRound | app/agent/protocol.py:316-333 | one round sends the offer; an acceptable one is agreed, otherwise the next price is the offer plus the increment, capped at the budget |
| Protocol.A2AProtocol.SettleRound | app/agent/protocol.py:328-333 | an acceptable offer is agreed on the spot, otherwise the next price is computed |
| Protocol.A2AProtocol.BuyerRound | app/agent/protocol.py:317-321 | the buyer's offer of one round is recorded and sent |
| Protocol.A2AProtocol.HandleBuyerMessage | app/agent/protocol.py:340-379 | the handler carries out the decision: nothing for ignored messages or a TypeError; otherwise the accept, counter-offer at the computed price or reject with "Превышает бюджет" on that negotiation, whose message is sent and returned when connected, and a RuntimeError with nothing sent when not; accepting without an offer is a ValueError with nothing sent |
| Protocol.OfferMessage | app/agent/protocol.py:191-202 | the offer message `make_offer` sends (its fields are stated by Protocol.OfferMessageFields) |
| Protocol.AutoOffers | app/agent/protocol.py:315-333 | the buyer's offers in `auto_negotiate`, rising by the increment up to the budget (stated by Protocol.AutoOffersStop) |
| Protocol.AutoOutcome | app/agent/protocol.py:315-335 | the negotiation state `auto_negotiate` ends with (stated by Protocol.AutoOutcomeFields, Protocol.AgreedOutcome and Protocol.ExhaustedOutcome) |
| Executor.ToolLinesList | app/agent/executor.py:218-228 | every advertised tool contributes its own "- name: description" line to the tools prompt |
| Executor.BuildToolsPrompt | app/agent/executor.py:218-228 | the loop that builds the tools prompt produces the heading, one line per tool in order, and the closing instructions on the TOOL:/ARGS: format |
| Executor.ConversationTurns | app/agent/executor.py:232-243 | the conversation has one turn per task message, each translated on its own |
| Executor.TurnRoles | app/agent/executor.py:232-243 | a turn's role is system, user or assistant; assistant exactly for assistant messages, system exactly for the system prompt, which gets the tools prompt appended; a tool result is sent as a user turn naming the tool |
| Executor.BuildConversation | app/agent/executor.py:232-243 | the loop over the messages builds exactly that conversation |
| Executor.LastToolLineNone | app/agent/executor.py:266-272 | no tool name is found exactly when no line starts with "TOOL:" |
| Executor.LastToolLineAt | app/agent/executor.py:266-272 | when several lines start with "TOOL:", the last one wins |
| Executor.LastArgsNone | app/agent/executor.py:266-272 | with no "ARGS:" line the arguments stay the empty dict |
| Executor.LastArgsAt | app/agent/executor.py:266-272 | the last parsable "ARGS:" line gives the arguments, parsed by json.loads |
| Executor.ToolOrArgs | app/agent/executor.py:266-272 | a line cannot be both the TOOL: line and the ARGS: line |
| Executor.ScanLines | app/agent/executor.py:262-272 | the line loop returns the last tool name and the last parsed arguments |
| Executor.ArgsField | app/agent/executor.py:274-282 | the arguments validate into the message field exactly when they are a dict or null; a dict is stored as is, null as None |
| Executor.ParsedSpec | app/agent/executor.py:261-289 | a reply is an assistant message with the model's text and tokens; it calls a tool exactly when it mentions TOOL: and its last TOOL: line names something; it fails, with a validation error, only when the arguments are neither dict nor null; a reply without TOOL: is a plain message |
| Executor.AdvertisedToolsRegistered | app/agent/executor.py:25-124 | the tools advertised to the model and the default tools registered are the same set of names |
| Executor.Strs | app/agent/executor.py:310-325 | the mock lists carry the given strings, in order |
| Executor.CompareList | app/agent/executor.py:339-348 | comparing a list of ids returns one entry per id, in order, with strictly falling scores starting at 0.8, and recommends the first id (None for none) |
| Executor.CompareFails | app/agent/executor.py:339-348 | comparing raises exactly when the ids are not iterable or are a non-empty dict |
| Executor.ExecuteTool | app/agent/executor.py:291-306 | an unknown tool gives the "not found" error text; a registered tool gives its value, or the error text of the exception it raised |
| Executor.DefaultToolsReturn | app/agent/executor.py:310-405 | every default tool other than compare returns a value on every input |
| Executor.ResponderSound | app/agent/executor.py:209-289 | every reply of the model is an assistant message with non-negative tokens |
| Executor.ToolMessage | app/agent/executor.py:174-188 | the message recorded after a tool call is a TOOL message naming the same tool and arguments, with no tokens, holding the tool's result and its str as content |
| Executor.StepShape | app/agent/executor.py:165-195 | a round either records the tool result and adds the reply's tokens and goes on, or ends: with the answer appended and no tokens added, or with an exception and the conversation unchanged |
| Executor.LoopBounds | app/agent/executor.py:165-199 | the loop never runs past max_iterations rounds and runs at least one when any is left; running out means reaching the limit |
| Executor.LoopKeeps | app/agent/executor.py:165-195 | the loop keeps the conversation as a prefix, adds one message per round except a failed one, and never lowers the token count |
| Executor.AnswerAddsNoTokens | app/agent/executor.py:189-195 | a final answer ends the loop at once with the answer appended and no tokens added |
| Executor.CompletedIffAnsweredInTime | app/agent/executor.py:165-199 | a task completes exactly when the answer comes before the last round; an answer in the last round still leaves it FAILED with "Max iterations reached" |
| Executor.UserText | app/agent/executor.py:150-155 | the user message is the instruction, with "Контекст: ..." after a blank line only when the context is not empty |
| Executor.AgentExecutor.constructor | app/agent/executor.py:95-124 | a new executor advertises AGENT_TOOLS and has the default tools registered |
| Executor.AgentExecutor.RegisterTool | app/agent/executor.py:126-128 | registering adds the tool under its name, replacing one of the same name |
| Executor.AgentExecutor.GenerateResponse | app/agent/executor.py:209-289 | the method computes the model's reply as the reply function describes it |
| Executor.AgentExecutor.Ask | app/agent/executor.py:209-289 | the method gives the answer of the responder the loop is specified with |
| Executor.AgentExecutor.ExecuteTask | app/agent/executor.py:130-207 | the agent task starts RUNNING with the system and user messages appended; without a client it fails with "No AI client configured" and no completion time; otherwise its rounds, messages, tokens, result, status and error are those of the specified loop and the completion time is set |
| Executor.AgentExecutor.RunLoop | app/agent/executor.py:165-204 | the try block leaves the agent task in the loop's final state: the answer as result, FAILED with the exception's text or with "Max iterations reached" when applicable, COMPLETED otherwise |
| Executor.AgentExecutor.AgentLoop | app/agent/executor.py:165-195 | the while loop ends in the state of the specified loop and reports whether the model raised |
| Executor.AgentExecutor.Round | app/agent/executor.py:166-195 | one pass counts a round and does exactly what the specified step says |
| Executor.ToolsPrompt | app/agent/executor.py:218-228 | the tools prompt: the heading, one "- name: description" line per tool, and the TOOL:/ARGS: instructions (stated by Executor.ToolLinesList and Executor.BuildToolsPrompt) |
| Executor.Parsed | app/agent/executor.py:261-289 | the assistant message made of a model reply (stated by Executor.ParsedSpec) |
| Executor.CompareProducts | app/agent/executor.py:339-348 | the comparison tool's outcome on its arguments (stated by Executor.CompareList and Executor.CompareFails) |
| Executor.Step | app/agent/executor.py:165-195 | one round of the agent loop on the conversation so far (stated by Executor.StepShape) |
| Executor.LoopFrom | app/agent/executor.py:165-199 | the agent loop from a round counter until an answer, an exception or max_iterations (stated by Executor.LoopBounds) |
| Factory.OrElse | app/agent/factory.py:333-337 | Python's `s or fallback` on strings: the string when it is not empty, the fallback otherwise |
| Factory.Styles | app/agent/factory.py:235-238 | the styles are exactly the names of the concept rows whose category is "style" or "taste", never more than the rows |
| Factory.StylesKeepOrder | app/agent/factory.py:235-238 | the filter keeps the order of the rows: a style row gives its name ahead of the names of the rows after it; other rows add nothing |
| Factory.UserPreferences | app/agent/factory.py:203-264 | brands, concepts, lifestyle and habits hold the rows of the queries that ran before an exception and stay empty after it; styles are always filtered from the concepts read |
| Factory.StyleFormalityAsWritten | app/agent/factory.py:274-279 | as written: a style containing "формальн" gives 0.8; only otherwise does "дружеск" or "неформальн" give 0.3 |
| Factory.InformalReadAsFormal | app/agent/factory.py:274-279 | every style containing "неформальн" is read as formal (0.8) by the code as written |
| Factory.StyleFormality | app/agent/factory.py:274-279 | the intended reading: an informal style gives 0.3; every other style reads as the code does |
| Factory.DecisionRisk | app/agent/factory.py:281-286 | an analytic decision style gives risk tolerance 0.3; otherwise an intuitive one gives 0.7; otherwise nothing changes |
| Factory.ExtractPersonality | app/agent/factory.py:266-288 | the traits are valid; verbosity, aggressiveness, price sensitivity and speed priority stay 0.5; the personality type is copied into the custom traits; formality and risk tolerance follow the style and decision hints when given and stay 0.5 otherwise |
| Factory.FormalityStyle | app/agent/factory.py:301-306 | formality above 0.7 is formal, below 0.3 informal, and balanced in between, each exactly |
| Factory.NegotiationStyle | app/agent/factory.py:308-314 | the same thresholds on aggressiveness select the hard, the soft and the firm bargaining phrase, each exactly |
| Factory.ProfileLines | app/agent/factory.py:316-327 | one non-empty line per given field of the owner; no line exactly when no field is given |
| Factory.ProfileText | app/agent/factory.py:333 | the owner's description is the notice "Информация о пользователе недоступна" exactly when there is no profile line |
| Factory.ListText | app/agent/factory.py:335-337 | no items, or one empty item, read "не определены"; two or more items, or a first item that is not empty, read as the comma-joined items |
| Factory.ConceptNames | app/agent/factory.py:328-329 | the interests are the names of the liked concepts, in order |
| Factory.SystemPromptSlots | app/agent/factory.py:290-341 | the template is filled with the agent name, the role's description and rules, the owner's description, the personality description, the formality and negotiation buckets, and the brands, the styles and at most ten interests, each "не определены" when empty |
| Factory.Render | app/agent/factory.py:20-55 | SYSTEM_PROMPT_TEMPLATE with its ten slots filled (formatted at app/agent/factory.py:330-341); the slot values are stated by Factory.SystemPromptSlots |
| Factory.SlotsReadTenInterests | app/agent/factory.py:328-341 | the slots depend on the brands, the styles and the first ten concepts only, not on lifestyle or habits |
| Factory.PromptReadsTenInterests | app/agent/factory.py:290-341 | so the system prompt reads only the first ten liked concepts and ignores lifestyle and habits |
| Factory.ExtremeParts | app/agent/factory.py:345-360 | at most three phrases, one per extreme formality, price sensitivity or speed priority score; none exactly when all three lie in 0.3-0.7 |
| Factory.ExtremePartsStart | app/agent/factory.py:345-365 | no extreme-score phrase starts as "Стандартный профиль" does |
| Factory.CustomParts | app/agent/factory.py:362-363 | one phrase per custom trait |
| Factory.CustomPartAt | app/agent/factory.py:362-363 | each custom trait's phrase is its name, a colon and its value, in insertion order |
| Factory.StandardProfileIff | app/agent/factory.py:343-365 | the description is "Стандартный профиль" exactly when no score is extreme and there are no custom traits |
| Factory.DescribePersonality | app/agent/factory.py:343-365 | appending the phrases step by step gives the specified description |
| Factory.AppendCustomParts | app/agent/factory.py:362-363 | the loop appends the custom-trait phrases to the extreme ones, in order |
| Factory.HabitNames | app/agent/factory.py:381 | the habit names, in order |
| Factory.SummaryParts | app/agent/factory.py:367-382 | the summary parts are never empty strings, and there is none exactly when there is no name, brand, style or habit |
| Factory.SummaryEmptyIff | app/agent/factory.py:367-384 | the summary is empty exactly when there is no name, brand, style or habit |
| Factory.SummaryReadsFirstFew | app/agent/factory.py:367-384 | the summary reads only the first five brands, the first five styles and the first three habits |
| Factory.BuildContextSummary | app/agent/factory.py:367-384 | appending the parts one by one and joining them with a vertical bar between spaces gives the specified summary |
| Factory.SystemPrompt | app/agent/factory.py:290-341 | the system prompt built from the name, role description, profile and personality (stated by Factory.SystemPromptSlots and Factory.PromptReadsTenInterests) |
| Factory.PersonalityDescription | app/agent/factory.py:343-365 | the personality description built from the trait scores (stated by Factory.StandardProfileIff and Factory.DescribePersonality) |
| Factory.ContextSummary | app/agent/factory.py:367-384 | the context summary built from the profile and preferences (stated by Factory.SummaryEmptyIff, Factory.SummaryReadsFirstFew and Factory.BuildContextSummary) |
| Personality.TraitsDict | app/analysis/personality.py:198-210 | the traits dict carries the three traits under "personality_type", "communication_style" and "decision_making" |
| Personality.CareerLines | app/analysis/personality.py:108-113 | one line per job, in order, reading "- role в company" with Python's str of each field |
| Personality.PromptSlotsOf | app/analysis/personality.py:102-137 | the slots are built exactly when every skill and interest is text (else TypeError from the join); career, skills, interests and history read "Нет данных" when empty; skills and interests are their comma-joined texts otherwise |
| Personality.Render | app/analysis/personality.py:11-56 | PERSONALITY_PROMPT with its six slots filled; the slot values are stated by Personality.PromptSlotsOf |
| Personality.BuildPrompt | app/analysis/personality.py:102-137 | `_build_prompt`: a TypeError exactly when Personality.PromptSlotsOf fails (a skill or interest that is not text), otherwise the template rendered with those slots |
| Personality.CareerType | app/analysis/personality.py:170-176 | at most two jobs give "консерватор", more than five "новатор", and anything between "практик", each exactly |
| Personality.AnyMentions | app/analysis/personality.py:180-191 | when every record's field is text the answer is whether some record mentions one of the words, case-insensitively; the only failure is the AttributeError of a field that is not text |
| Personality.AnalyzeHeuristic | app/analysis/personality.py:164-202 | the heuristic succeeds whenever every skill and interest is text, and fails only with AttributeError |
| Personality.HeuristicRules | app/analysis/personality.py:164-202 | a technical skill makes the type "аналитик" and the decision analytic; otherwise the type comes from the career length and the decision is intuitive; the style is friendly exactly when an interest is social |
| Personality.ReadReply | app/analysis/personality.py:139-162 | a raised call, or a fence with no newline, gives the default traits; otherwise the reply, stripped and unfenced, is decoded, falling back to the default traits when it does not decode |
| Personality.Analyze | app/analysis/personality.py:75-100 | no facts give the default traits; otherwise the prompt is built first and its TypeError propagates; then the model's reply is read, or, with no model, the heuristic's traits are returned |
| Personality.PromptFieldsAreText | app/analysis/personality.py:93-100 | once the prompt has been built the heuristic cannot raise |
| Personality.Recommendation | app/analysis/personality.py:243-270 | the advice of a known type is returned, "Стандартный подход." for any other hashable value, and a list or dict raises TypeError |
| Personality.Advice | app/analysis/personality.py:243-270 | the advice for each of the five known personality types, None for any other (used by Personality.Recommendation) |
| Biography.Period | app/analysis/biography.py:142-147 | a current job (no truthy until) runs from its since to "настоящее время", an ended one from since to until; a missing since reads "?" |
| Biography.CareerLine | app/analysis/biography.py:148 | each career line is a "- " bullet |
| Biography.SkillLine | app/analysis/biography.py:152-156 | each skill line is a "- " bullet |
| Biography.InterestLine | app/analysis/biography.py:160 | each interest line is a "- " bullet |
| Biography.ConnectionLine | app/analysis/biography.py:164-168 | each connection line is a "- " bullet |
| Biography.Section | app/analysis/biography.py:149 | a section of bullets reads "Нет данных" exactly when it has no line |
| Biography.CareerLines | app/analysis/biography.py:140-148 | one career line per job, in order |
| Biography.SkillLines | app/analysis/biography.py:152-156 | one skill line per skill, in order |
| Biography.InterestLines | app/analysis/biography.py:160 | one interest line per interest, in order |
| Biography.ConnectionLines | app/analysis/biography.py:163-168 | one connection line per connection, in order |
| Biography.PromptSlotsOf | app/analysis/biography.py:135-180 | the template gets the person's name, location and bio with their defaults, each section joined by newlines and "Нет данных" exactly when its list is empty, and the style and language unchanged |
| Biography.Render | app/analysis/biography.py:13-54 | BIOGRAPHY_PROMPT_TEMPLATE with its nine slots filled; the slot values are stated by Biography.PromptSlotsOf |
| Biography.BuildPrompt | app/analysis/biography.py:135-180 | `_build_prompt`: the template rendered with the slots of Biography.PromptSlotsOf, which states each slot |
| Biography.SentenceTexts | app/analysis/biography.py:197-232 | one text per sentence, in order |
| Biography.CurrentJob | app/analysis/biography.py:209 | the job picked is the first with no truthy until, and none is picked only when every job has ended |
| Biography.CareerSentences | app/analysis/biography.py:207-215 | the career adds at most two sentences |
| Biography.CareerSentencesContents | app/analysis/biography.py:207-215 | the number of jobs is told exactly when there is more than one, the current job whenever there is one, and nothing else |
| Biography.Listed | app/analysis/biography.py:223-229 | the names of the first n records are listed, in order, exactly when all of them are strings; later records are not read |
| Biography.SkillPart | app/analysis/biography.py:220-225 | the skills sentence names the first five skills, and is present exactly when there are skills whose names are strings |
| Biography.InterestPart | app/analysis/biography.py:226-231 | the interests sentence names the first three interests, and is present exactly when there are interests whose names are strings |
| Biography.Sentences | app/analysis/biography.py:197-232 | the sentences are the opening, then the career, skills and interests sentences, one to five of them; a listed name that is not a string raises TypeError, and nothing else does |
| Biography.FallbackOpening | app/analysis/biography.py:199-205 | the template biography opens with the name and location sentence |
| Biography.FallbackReadsFirstFew | app/analysis/biography.py:218-232 | the template biography reads only the first five skills and the first three interests |
| Biography.SentenceTextsSingle | app/analysis/biography.py:197-232 | one sentence gives its own text |
| Biography.SentenceTextsAppend | app/analysis/biography.py:197-232 | the texts of two runs of sentences are the texts of each, in order |
| Biography.AppendCareer | app/analysis/biography.py:207-215 | the career step appends the career sentences |
| Biography.AppendWork | app/analysis/biography.py:209-214 | the search for a current job appends its sentence when there is one |
| Biography.AppendMoves | app/analysis/biography.py:215-216 | the job count sentence is appended for more than one job |
| Biography.Opening | app/analysis/biography.py:199-205 | the opening is the name, " из " and the location when it is truthy, and a full stop |
| Biography.AppendNames | app/analysis/biography.py:220-231 | no records append nothing; otherwise the list sentence is appended, or TypeError is raised when a name is not a string |
| Biography.GenerateFallback | app/analysis/biography.py:197-232 | the step-by-step method gives the specified template biography or its TypeError |
| Biography.Generate | app/analysis/biography.py:73-133 | no facts give the fixed answer under a fresh id with model "none"; otherwise the content is the model's text, "Ошибка генерации: …" with model "error", or the template biography with model "template", saved under the stored id with the number of career, skill, interest and connection records |
| Biography.FactsCountZero | app/analysis/biography.py:104-110 | a known person reports zero facts exactly when all four lists are empty |
| Biography.Fallback | app/analysis/biography.py:197-232 | the template biography used without a model (stated by Biography.FallbackOpening, Biography.FallbackReadsFirstFew and Biography.GenerateFallback) |
| EmailParser.NewAnalysis | app/ingestion/email_parser.py:45-63 | the dataclass keeps every given field, and a None list of facts becomes the empty list, so facts are never None |
| EmailParser.DefaultAnalysis | app/ingestion/email_parser.py:45-63 | the default analysis has no sender fields, formality "neutral", tone "business", verbosity "moderate" and no facts |
| EmailParser.FirstRegards | app/ingestion/email_parser.py:152-154 | the closing line found is the first one containing "с уважением", "best regards" or "regards", and none is found only when no line has one |
| EmailParser.NameCandidate | app/ingestion/email_parser.py:156-158 | the line after the closing is a name exactly when, stripped, it is not empty, holds no '@' and does not start with '+'; the name is the stripped line |
| EmailParser.SignatureName | app/ingestion/email_parser.py:150-159 | a name is read only from the line right after the first closing line, and is read whenever that line is a name candidate |
| EmailParser.SignatureStopsAtFirst | app/ingestion/email_parser.py:150-159 | the scan breaks at the first closing line: lines after the one following it do not change the name |
| EmailParser.FirstRegardsPrefix | app/ingestion/email_parser.py:152-154 | lines appended after a closing line do not change which closing line comes first |
| EmailParser.Verbosity | app/ingestion/email_parser.py:162-163 | fewer than 50 words is brief, more than 200 verbose, and anything between moderate, each exactly |
| EmailParser.Style | app/ingestion/email_parser.py:165-175 | an informal marker makes the letter informal and friendly; otherwise a formal marker makes it formal and business; otherwise it stays neutral and business; informal exactly when friendly |
| EmailParser.DearThisIsInformal | app/ingestion/email_parser.py:166-171 | markers match as substrings, so "dear, this" is informal because "this" contains "hi" |
| EmailParser.Heuristic | app/ingestion/email_parser.py:134-177 | the rule-based analysis takes the first address and the first phone found, the signature name, the verbosity of the word count and the style of the lower-cased text, and leaves position, company and facts empty |
| EmailParser.ScanSignature | app/ingestion/email_parser.py:150-159 | the line loop stops at the first closing line and gives the specified name |
| EmailParser.ParseHeuristic | app/ingestion/email_parser.py:134-177 | updating the default analysis field by field gives the specified rule-based analysis |
| EmailParser.FromReply | app/ingestion/email_parser.py:114-129 | a decoded reply is read exactly when it and its sender and style are dicts, else AttributeError; the sender's name, position, company, phone and email, the style with "neutral", "business" and "moderate" for missing values, and the extracted facts fill the analysis |
| EmailParser.Parse | app/ingestion/email_parser.py:82-132 | with no model, or a call that raised, the result is the rule-based analysis; when the unfenced reply decodes to an analysis of the right shape, that analysis is the result, and otherwise the rule-based one |
| EmailParser.Prompt | app/ingestion/email_parser.py:12-42 | the analysis prompt with the email text placed between the two --- fences (EMAIL_ANALYSIS_PROMPT formatted at app/ingestion/email_parser.py:100); it is the text handed to the model in EmailParser.Parse |
| EmailParser.RecordOf | app/ingestion/email_parser.py:206-218 | each fact row belongs to the owner, has category "email_extraction" and source "email", the fact's type ("other" when missing) and value ("" when missing), and the letter's formality and tone |
| EmailParser.Records | app/ingestion/email_parser.py:205-220 | one row per fact, in order, exactly when every fact is a dict; otherwise AttributeError |
| EmailParser.Owner | app/ingestion/email_parser.py:194-200 | the owner is the given id when it is truthy, else the person found by the sender's address when there is one, else the given value |
| EmailParser.Enrich | app/ingestion/email_parser.py:179-226 | the result carries the analysis and the owner; it is enriched exactly when there is an owner and the analysis has facts, and then its rows are Records of the facts: one row per fact, in order, for that owner, with category email_extraction, source email, the fact's type (default "other") and value (default ""), and the analysis's formality and tone; there are no rows otherwise; it can fail only when enriching |
| EmailParser.ExtractAndEnrich | app/ingestion/email_parser.py:179-226 | adding the rows one fact at a time gives the specified enrichment |
| ResumeParser.EmptyResume | app/ingestion/resume_parser.py:64-88 | the default record has no person details and empty career, education, skills, languages and certifications |
| ResumeParser.DetectedSkill | app/ingestion/resume_parser.py:184-190 | a keyword found gives a skill named by the capitalized keyword, level "intermediate", category "detected" |
| ResumeParser.Detected | app/ingestion/resume_parser.py:179-190 | never more skills than keywords |
| ResumeParser.DetectedIff | app/ingestion/resume_parser.py:179-190 | a skill is recorded for every keyword the lower-cased text contains, and for no other |
| ResumeParser.JavascriptYieldsJava | app/ingestion/resume_parser.py:179-190 | keywords match as substrings, so a resume that mentions only "javascript" also gets Java |
| ResumeParser.Heuristic | app/ingestion/resume_parser.py:159-192 | the keyword analysis takes the first address and the first phone found, detects the skills, and leaves name, location, bio and the other lists empty |
| ResumeParser.DetectSkills | app/ingestion/resume_parser.py:184-190 | the keyword loop appends exactly the specified skills, in keyword order |
| ResumeParser.ParseHeuristic | app/ingestion/resume_parser.py:159-192 | updating the default record field by field gives the specified keyword analysis |
| ResumeParser.FromReply | app/ingestion/resume_parser.py:139-154 | a decoded reply is read exactly when it and its person are dicts, else AttributeError; name, email, phone, location and bio come from the person object, and career, education, skills, languages and certifications from the reply, empty when missing |
| ResumeParser.Parse | app/ingestion/resume_parser.py:107-157 | with no model, or a call that raised, the result is the keyword analysis; when the unfenced reply decodes to a record of the right shape, that record is the result, and otherwise the keyword analysis |
| ResumeParser.CareerWriteOf | app/ingestion/resume_parser.py:238-257 | a job is written for the person with its company ("Unknown" when missing), role ("" when missing), since and until, and is current exactly when until is missing or None |
| ResumeParser.PersonWriteOf | app/ingestion/resume_parser.py:229-235 | a new person is created from the resume's name, e-mail, phone, location and bio |
| ResumeParser.SkillWriteOf | app/ingestion/resume_parser.py:260-274 | a skill is written for the person with its name ("" when missing), category, and level ("intermediate" when missing) |
| ResumeParser.CareerWrites | app/ingestion/resume_parser.py:238-257 | one write per job, in order |
| ResumeParser.SkillWrites | app/ingestion/resume_parser.py:260-274 | one write per skill, in order |
| ResumeParser.DocumentOf | app/ingestion/resume_parser.py:280-296 | the saved document belongs to the person, has type "resume", the title "Resume - " and the name, the raw text, and parsed data holding career, education, skills and languages, in that order |
| ResumeParser.Import | app/ingestion/resume_parser.py:194-299 | without a name nothing is written; otherwise the person found by e-mail is updated, or else a new one is created with the resume's name, e-mail, phone, location and bio, never both; every job and skill is written for that person, followed by the document; it fails, with TypeError or AttributeError, exactly when the career or the skills are not a list of dicts |
| ResumeParser.HeuristicImportsNothing | app/ingestion/resume_parser.py:159-213 | the keyword analysis never finds a name, so importing it writes nothing |
| ResumeParser.WriteCareer | app/ingestion/resume_parser.py:236-257 | the job loop gives the specified writes, or AttributeError at the first job that is not a dict |
| ResumeParser.WriteSkills | app/ingestion/resume_parser.py:259-274 | the skill loop gives the specified writes, or AttributeError at the first skill that is not a dict |
| ResumeParser.ImportToGraph | app/ingestion/resume_parser.py:194-299 | the step-by-step import gives the specified result |
| LinkedInParser.EmptyProfile | app/ingestion/linkedin_parser.py:59-85 | the default profile has no person details and no current position, empty experience, education and skills, and zero counts |
| LinkedInParser.JobOfReads | app/ingestion/linkedin_parser.py:134-140 | a position's job dict holds its company name, title, start year, end year and summary |
| LinkedInParser.JobReadsFirst | app/ingestion/linkedin_parser.py:134-140 | the company, role and since of a job dict read back |
| LinkedInParser.JobReadsLast | app/ingestion/linkedin_parser.py:134-140 | the until and description of a job dict read back |
| LinkedInParser.UnreadableAt | app/ingestion/linkedin_parser.py:133-145 | a single position that cannot be read makes the whole position list raise |
| LinkedInParser.Each | app/ingestion/linkedin_parser.py:133-141 | the experience has one entry per position |
| LinkedInParser.EachAt | app/ingestion/linkedin_parser.py:133-141 | the experience entry at each index is the job of the position at that index |
| LinkedInParser.LastCurrent | app/ingestion/linkedin_parser.py:143-145 | the position that sets the current job is the last one flagged current; none is found only when no position is flagged |
| LinkedInParser.CurrentStep | app/ingestion/linkedin_parser.py:143-145 | a later position flagged current replaces the current company and role; an unflagged one keeps them |
| LinkedInParser.AddPosition | app/ingestion/linkedin_parser.py:133-145 | one pass of the position loop appends the job and, for a flagged position, takes its company and role |
| LinkedInParser.ReadPositions | app/ingestion/linkedin_parser.py:132-145 | the position loop gives the experience and the current company and role, or AttributeError when a position cannot be read |
| LinkedInParser.EducationOfReads | app/ingestion/linkedin_parser.py:150-155 | an education entry holds the school name, degree, field of study and end year |
| LinkedInParser.EducationReads | app/ingestion/linkedin_parser.py:150-155 | the entries of an education dict read back |
| LinkedInParser.Education | app/ingestion/linkedin_parser.py:148-155 | one education entry per API entry, in order |
| LinkedInParser.ReadEducations | app/ingestion/linkedin_parser.py:148-155 | the education loop gives those entries, or AttributeError when an entry cannot be read |
| LinkedInParser.SkillNames | app/ingestion/linkedin_parser.py:158-159 | the skill names are never more than the entries, and the comprehension fails only with AttributeError |
| LinkedInParser.SkillNamesIff | app/ingestion/linkedin_parser.py:158-159 | the comprehension succeeds exactly when every entry can be read, and then lists exactly the names of the entries that have a skill |
| LinkedInParser.EntryWithoutSkillIgnored | app/ingestion/linkedin_parser.py:159 | an entry with no skill adds no name |
| LinkedInParser.Values | app/ingestion/linkedin_parser.py:132 | a list is read only from a dict under its key, and reading one fails only with AttributeError or TypeError |
| LinkedInParser.ApiNameOfTrimmed | app/ingestion/linkedin_parser.py:126 | trimmed first and last names are joined by exactly one space |
| LinkedInParser.ApiNameMissing | app/ingestion/linkedin_parser.py:126 | with neither name present the name is empty |
| LinkedInParser.ApiProfile | app/ingestion/linkedin_parser.py:121-164 | the API response is read exactly when every value read from is a dict and every list walked is iterable; the only failures are AttributeError and TypeError |
| LinkedInParser.ApiProfileContents | app/ingestion/linkedin_parser.py:121-164 | a response read without error gives the stripped name, one job per position in order, the company and role of the last position flagged current (None when none is), the education entries, the names of the entries with a skill, and the connection count (0 when missing) |
| LinkedInParser.ParseApiResponse | app/ingestion/linkedin_parser.py:121-164 | filling the profile in field by field gives the specified profile or its error |
| LinkedInParser.Heuristic | app/ingestion/linkedin_parser.py:206-222 | the pattern fallback reads only the profile URL, prefixed with "https://www.", and the connection count, 0 when absent |
| LinkedInParser.FromReply | app/ingestion/linkedin_parser.py:184-201 | a decoded reply is read exactly when it and its person and current position are dicts, else AttributeError; name, headline, location and bio come from the person, company and role from the position, experience, education and skills as given and the counts 0 when missing; no URL |
| LinkedInParser.Parse | app/ingestion/linkedin_parser.py:104-119 | an API dict is read as such and its errors propagate; text never fails: without a model, or when the call raised, it gives the pattern fallback; when the unfenced reply decodes to a profile of the right shape, that profile is the result, and otherwise the fallback |
| LinkedInParser.PersonWriteOf | app/ingestion/linkedin_parser.py:252-256 | the person is created with the profile's name and location, and its bio, or the headline when the bio is empty |
| LinkedInParser.CareerWriteOf | app/ingestion/linkedin_parser.py:268-285 | a job is written for the person with its company, role ("" when missing), since and until, and is current exactly when until is missing or None |
| LinkedInParser.CareerWrites | app/ingestion/linkedin_parser.py:264-285 | never more writes than jobs |
| LinkedInParser.CareerWritesIff | app/ingestion/linkedin_parser.py:264-285 | a relation is written for every job with a company and for no other job |
| LinkedInParser.SkillWrites | app/ingestion/linkedin_parser.py:289-303 | never more writes than skill names |
| LinkedInParser.SkillWritesIff | app/ingestion/linkedin_parser.py:289-303 | a relation is written exactly for each non-empty skill name, at level "intermediate" with source "linkedin" |
| LinkedInParser.DocumentOf | app/ingestion/linkedin_parser.py:309-324 | the saved document belongs to the person, has type "linkedin", the title "LinkedIn - " and the name, the profile URL, the raw input, and parsed data holding headline, experience, education, skills and the connection count, in that order |
| LinkedInParser.WithUrl | app/ingestion/linkedin_parser.py:236-237 | a non-empty linkedin_url argument replaces the profile URL and nothing else changes |
| LinkedInParser.Import | app/ingestion/linkedin_parser.py:224-326 | without a name nothing is written; otherwise a person is always created, never updated, and every job with a company and every non-empty skill name is written for it, followed by the document; it fails, with TypeError or AttributeError, exactly when the experience is not a list of dicts or the skills are not iterable |
| LinkedInParser.HeuristicImportsNothing | app/ingestion/linkedin_parser.py:206-247 | a pattern-only parse never finds a name, so importing it creates nobody |
| LinkedInParser.WriteCareer | app/ingestion/linkedin_parser.py:264-287 | the job loop skips jobs without a company and gives the specified writes, or AttributeError at a job that is not a dict |
| LinkedInParser.WriteSkills | app/ingestion/linkedin_parser.py:289-303 | the skill loop skips empty names and gives the specified writes |
| LinkedInParser.ImportToGraph | app/ingestion/linkedin_parser.py:224-326 | the step-by-step import gives the specified result |
| EventConsumer.FirstMatch | app/events/consumer.py:94-102 | the index returned is of a topic word the topic contains, and no earlier word is contained; None exactly when no word is contained |
| EventConsumer.EventTypeIsFirstMatch | app/events/consumer.py:86-102 | an explicit "type" in the message is returned as it is; otherwise the type is the first of email, linkedin, resume, contact that occurs in the topic, or "unknown" when none does |
| EventConsumer.EmailBeforeLinkedIn | app/events/consumer.py:94-97 | the test order decides over position: the topic "linkedin-email" is typed "email" |
| EventConsumer.Event | app/events/consumer.py:61-74 | the event is built exactly when the message is a dict (else AttributeError at `value.get`), with the decided type, the topic as source, and "data" as payload or the whole message when it has none |
| GraphRels.WorksAtFromRecord | app/graph/rels.py:19-27 | each field is the record's value for its key when present, and the dataclass default when missing (role "", is_current True, None elsewhere) |
| GraphRels.WorksAtRoundTrip | app/graph/rels.py:19-37 | reading a WORKS_AT relationship back from its `to_dict` gives it unchanged |
| GraphRels.WorksAtToDict | app/graph/rels.py:29-37 | the WORKS_AT properties role, department, since, until and is_current; reading them back gives the relationship unchanged (stated by GraphRels.WorksAtRoundTrip) |
| GraphRels.KnowsFromRecord | app/graph/rels.py:52-60 | last_interaction is never read and is always None; every other field is the record's value when present, and when missing: strength 0.5 (inside the 0-1 range), count 0, None elsewhere |
| GraphRels.KnowsRoundTrip | app/graph/rels.py:52-71 | the KNOWS round trip keeps every field except last_interaction, which comes back None |
| GraphRels.KnowsRoundTripIdentity | app/graph/rels.py:52-71 | the KNOWS round trip is the identity if and only if last_interaction is unset |
| GraphRels.KnowsToDict | app/graph/rels.py:62-71 | the KNOWS properties, last_interaction formatted or None; reading them back loses only last_interaction (stated by GraphRels.KnowsRoundTrip and GraphRels.KnowsRoundTripIdentity) |
| GraphRels.HasSkillFromRecord | app/graph/rels.py:84-91 | each field is the record's value when present; a missing key gives the default: level "intermediate", certified False, None elsewhere |
| GraphRels.HasSkillRoundTrip | app/graph/rels.py:84-100 | reading a HAS_SKILL relationship back from its dict gives it unchanged |
| GraphRels.HasSkillToDict | app/graph/rels.py:93-100 | the HAS_SKILL properties level, years_experience, certified and last_used; reading them back gives the relationship unchanged (stated by GraphRels.HasSkillRoundTrip) |
| GraphRels.InterestedInFromRecord | app/graph/rels.py:111-116 | a missing level is "hobby", a missing since None; a present key gives the record's value |
| GraphRels.InterestedInRoundTrip | app/graph/rels.py:111-123 | the INTERESTED_IN round trip is the identity |
| GraphRels.InterestedInToDict | app/graph/rels.py:118-123 | the INTERESTED_IN properties level and since; reading them back gives the relationship unchanged (stated by GraphRels.InterestedInRoundTrip) |
| GraphRels.ParticipatedInFromRecord | app/graph/rels.py:134-139 | a missing role is "attendee", missing notes None; a present key gives the record's value |
| GraphRels.ParticipatedInRoundTrip | app/graph/rels.py:134-146 | the PARTICIPATED_IN round trip is the identity |
| GraphRels.ParticipatedInToDict | app/graph/rels.py:141-146 | the PARTICIPATED_IN properties; reading them back gives the relationship unchanged (stated by GraphRels.ParticipatedInRoundTrip) |
| GraphRels.EmptyRecordsGiveDefaults | app/graph/rels.py:20-26 | an empty record reads as the dataclass defaults, for each of the five relationships |
| GraphNodes.PersonMissingKeys | app/graph/nodes.py:30-43 | a key missing from the record gives "" for id and name (not a fresh uuid) and None for the other fields; the timestamps are new |
| GraphNodes.PersonRoundTrip | app/graph/nodes.py:30-60 | reading a person back from its `to_dict` keeps all ten data fields; only the two timestamps are new |
| GraphNodes.PersonToDict | app/graph/nodes.py:45-60 | the person's dict: the ten data fields under their keys and both timestamps formatted; reading it back keeps the data fields (stated by GraphNodes.PersonRoundTrip) |
| GraphNodes.CompanyMissingKeys | app/graph/nodes.py:79-90 | a missing key gives "" for id and name and None elsewhere |
| GraphNodes.CompanyRoundTrip | app/graph/nodes.py:79-104 | reading a company back from its dict keeps all eight data fields; only created_at is new |
| GraphNodes.CompanyToDict | app/graph/nodes.py:92-104 | the company's dict: the eight data fields under their keys and created_at formatted; reading it back keeps the data fields (stated by GraphNodes.CompanyRoundTrip) |
| GraphNodes.SkillFromRecord | app/graph/nodes.py:116-121 | level is never read and stays None; name and category are the record's values when present, and "" and None when missing |
| GraphNodes.SkillLevelLost | app/graph/nodes.py:108-121 | a record that stores a level reads back with name and category but without the level |
| GraphNodes.InterestFromRecord | app/graph/nodes.py:133-139 | name, category and icon are the record's values when present; missing, the name is "" and the others None |
| GraphNodes.EventFromRecord | app/graph/nodes.py:154-162 | date is never read and stays None; id, title, description, type and location are the record's values when present; missing, the type is "meeting", id and title "", the others None |
| GraphNodes.EventDateLost | app/graph/nodes.py:143-162 | an event record with a date reads back without it, the other fields intact |
| GraphNodes.EmptyRecordNodes | app/graph/nodes.py:30-162 | an empty record gives every node "" for its id and name and None for the optional fields |
| TasteGraph.ConceptMissingKeys | app/media/taste_graph.py:24-31 | a missing key gives "" (id, name, category), None (description) or 0.0 (popularity) |
| TasteGraph.ConceptRoundTrip | app/media/taste_graph.py:24-41 | a concept read back from its dict keeps its five data fields; only created_at is new |
| TasteGraph.ConceptFromRecord | app/media/taste_graph.py:24-31 | a concept read from a record, each missing key giving its default (stated by TasteGraph.ConceptMissingKeys) |
| TasteGraph.ConceptToDict | app/media/taste_graph.py:33-41 | the concept's dict, created_at formatted; reading it back keeps the five data fields (stated by TasteGraph.ConceptRoundTrip) |
| TasteGraph.BrandMissingKeys | app/media/taste_graph.py:61-70 | a missing key gives "" (id, name, category, price tier) or None (logo, website, country) |
| TasteGraph.BrandRoundTrip | app/media/taste_graph.py:61-82 | a brand read back from its dict keeps its seven data fields; only created_at is new |
| TasteGraph.BrandFromRecord | app/media/taste_graph.py:61-70 | a brand read from a record, each missing key giving its default (stated by TasteGraph.BrandMissingKeys) |
| TasteGraph.BrandToDict | app/media/taste_graph.py:72-82 | the brand's dict, created_at formatted; reading it back keeps the seven data fields (stated by TasteGraph.BrandRoundTrip) |
| TasteGraph.LifestyleFromRecord | app/media/taste_graph.py:97-103 | id, name, category and description are the record's values when present; missing, the first three are "" and the description None; the timestamp is new |
| TasteGraph.NewLikes | app/media/taste_graph.py:109-116 | a new LIKES relationship has a strength in 0-1, at least one piece of evidence and a known source |
| TasteGraph.NewWears | app/media/taste_graph.py:120-127 | a new WEARS relationship has a confidence in 0-1, at least one piece of evidence and a known frequency |
| TasteGraph.NewHasLifestyle | app/media/taste_graph.py:131-137 | a new HAS_LIFESTYLE relationship has confidence 0.5 and an empty description |
| TasteGraph.RelationshipDefaults | app/media/taste_graph.py:109-127 | the defaults are strength and confidence 0.5, one piece of evidence, source "media", frequency "sometimes" |
| GraphqlTypes.Part | app/api/graphql/types.py:95-100 | a trait adds a part exactly when it is set and not empty, and that part is its heading followed by the value |
| GraphqlTypes.Summary | app/api/graphql/types.py:92-101 | the summary is None exactly when all three traits are unset or empty |
| GraphqlTypes.SummaryOfAll | app/api/graphql/types.py:92-101 | with all three traits the summary is the three headed values joined by ". ", type first |
| GraphqlTypes.SummaryOfOne | app/api/graphql/types.py:92-101 | a single trait gives its headed value alone, without a separator |
| GraphqlTypes.SummaryOpensWithFirst | app/api/graphql/types.py:92-101 | the first trait present opens the summary |
| GraphqlTypes.SummaryMentionsEach | app/api/graphql/types.py:92-101 | every trait present occurs in the summary under its heading |
| GraphqlTypes.JoinHasPart | app/api/graphql/types.py:101 | each part of a `join` occurs in the joined string |
| GraphqlTypes.Personality | app/api/graphql/types.py:190-196 | a person's personality carries its three traits unchanged |
| GraphqlTypes.PersonSummary | app/api/graphql/types.py:190-196 | a person's summary is None exactly when all three traits are unset or empty, and depends on those three traits only |
| EventConsumer.EventType | app/events/consumer.py:86-102 | the event type of `_get_event_type`: the message's own "type", else the first topic word that matches, else "unknown" (stated by EventConsumer.EventTypeIsFirstMatch) |
| GraphNodes.PersonFromRecord | app/graph/nodes.py:30-43 | the person node read from a record, with the missing-key defaults and the round trip stated by GraphNodes.PersonMissingKeys and GraphNodes.PersonRoundTrip |
| GraphNodes.CompanyFromRecord | app/graph/nodes.py:79-90 | the company node read from a record, with the missing-key defaults and the round trip stated by GraphNodes.CompanyMissingKeys and GraphNodes.CompanyRoundTrip |
| GraphqlTypes.SummaryOfTwo | app/api/graphql/types.py:92-101 | with two of the three traits the summary is their two headed values joined by one ". ", in the fixed order type, communication, decision making |
| Clock.IsoFormat | app/graph/rels.py:69 | `isoformat()` of an instant: the date, "T" and the time, with the fraction only for a non-zero microsecond (stated by Clock.IsoFormatFraction) |
| Clock.IsoFormatFraction | app/graph/rels.py:69 | the ".ffffff" fraction appears in `isoformat()` exactly when the microsecond is not 0 |
| Json.StrRepr | app/agent/protocol.py:196 | `repr` of a str, as in the offer's terms text: it is quoted with `"` exactly when the text holds a `'` and no `"`, and with `'` otherwise |
| Json.StrReprPlain | app/agent/protocol.py:196 | a text with nothing to escape appears between its quotes as it is |
| Json.EscapedPlain | app/agent/protocol.py:196 | characters other than backslash, the quote and control characters are kept as they are |
| Json.StrReprApostrophe | app/agent/protocol.py:196 | "it's" is shown as `"it's"` |
| Json.StrReprBothQuotes | app/agent/protocol.py:196 | a text with both quotes keeps `'` quotes and escapes its `'` |

## Left out

- Datastore I/O: the SQL and Cypher text, `client.query`/`client.insert` and `session.run` of ClickHouse, Neo4j and PostgreSQL are not modelled. Their results are inputs and their writes are returned records.
- `ClickHouseDB.connect` is modelled only as the `connected` flag it sets. The connection parameters are configuration.
- Language-model calls, in the memory engine, pattern miner, executor, parsers, biography and personality analysers, are oracle strings passed in. An exception raised by such a call is an input as well.
- `json.loads`, `json.dumps` and pydantic construction are parameters. Only the selection of the `{`…`}` and `[`…`]` spans and the code-fence stripping are modelled.
- DBSCAN clustering and numpy: the cluster labels are an input. `sqrt` in the radius, and `round(x, 4)` in the location key, are parameter functions.
- Floating point: scores, confidences and thresholds are `real`, and IEEE rounding is not modelled.
- Python set order: `AnalyzeGeoPatterns` takes the clusters in ascending label order, and `InferEventTypes` returns a set of types. The source iterates over a Python `set`, whose order is not specified.
- `PatternMiner.ModalHour`: a tie between hours goes to the smallest hour. The source's `max(set(...), key=count)` keeps the first maximum in CPython's set order, which need not be the smallest (`{9, 3}` can iterate 9 first).
- `PatternMiner.HourDistribution`: lists the hours in ascending order, where the source's dict follows the iteration order of a `set`. The counts per hour are the same.
- `PatternMiner.ClusterDict` and `PatternMiner.RoutineDict`: the `"id": str(uuid4())` entry of each mined pattern is not modelled, so the dicts lack an `id` key.
- `EventStore.ClickHouse.SavePattern`: returns `""` for a mined pattern, because the pattern dicts of the model carry no `id`. With an `id` entry it returns that id, as the source does.
- `AgentModels.AgentMessage` and `AgentModels.A2AMessage`: the default `id` (a fresh uuid) and `timestamp` (the current time) of each message are not modelled.
- `Text.Lower` and `Text.Upper`: only ASCII and Cyrillic letters change case. Python's `str.lower`/`str.upper` also covers every other cased Unicode letter.
- `Executor.ErrorText`: approximates `str(e)`. For a ValidationError it gives only the first line of pydantic's message. For an AttributeError or a TypeError it gives `""`, because the model does not carry those messages.
- `MemoryContext.GenerateAnswer`: without a model client it answers with the corrected `MemoryContext.SimpleAnswer` over the events, not the source's `_generate_simple_answer(question, context)`, which is `MemoryContext.SimpleAnswerAsWritten` (see Findings).
- Regexes: the email, phone, URL and connection-count patterns of the parsers are parameter functions.
- The wall clock, `datetime.utcnow` and `uuid4` are parameters.
- The asyncio sleep between agent turns is left out, because it changes no state.
- Schedulers and loops: APScheduler, the pattern miner's scheduling loop, the Kafka consume loop and `A2AProtocol.receive_messages` are not modelled. Messages the protocol sends are kept as an output log.
- The GraphQL resolvers that query the graph are not modelled. Only `PersonalityType.summary` and `PersonType.personality` are.
- The agent factory's `create_agent`, `get_agent`, `update_agent`, `_save_agent` and `_get_user_profile` read and write PostgreSQL and Neo4j and are not modelled. The profile and preferences they would load are parameters of the factory's text builders.
- `_get_communication_history` is a Neo4j query. The history it returns is a parameter.
- The `ROLE_DESCRIPTIONS.get` fallback in `_build_system_prompt` cannot be reached, because an agent role is one of a closed set of enum values, and every value has a description.
- `Ingest.IngestEvents`: the source guards a per-event append of errors that cannot fail, so `errors` is always empty. The model states this.
- `PatternMiner.GenerateInsights`: the confidence the language model reports is copied without a range check, as the source does, so the declared 0–1 bound of `DiscoveredPattern` does not hold for insights.
- `ResumeParser.Import`: an exception part-way through leaves the earlier writes in the database, and the model reports only the error.
- `LinkedInParser.Import`: an exception part-way through leaves the earlier writes in the database, and the model reports only the error.
- `Factory.ExtractPersonality`: uses the corrected `Factory.StyleFormality`, not the code as written (see Findings).
- `Json.StrRepr`: escapes backslash, the chosen quote and the ASCII control characters, as `repr` does. Python's `repr` also escapes non-printable characters outside ASCII (as `\x`, `\u` or `\U`), which the model keeps as they are.
- `PatternMiner.SaveInsightToGraph`: the graph's answer is one flag for the whole run. The `discovered_at` timestamps of the Habit node and of the HAS_HABIT relation, and the relation's constant `source: 'pattern_miner'`, are not modelled.
- Library-wrapper modules are not part of this model: the vision worker, MinIO storage with AES-GCM, voice, blockchain and NFT.
- HTTP routing, configuration, startup glue and the tests are not part of this model.

## Findings

| source | as written | input that shows it | evidently intended | confidence | as-written member | corrected member |
|---|---|---|---|---|---|---|
| app/life_stream/api/memory.py:403-411 | the simple answer counts every "- " line of the context as an event, including the pattern and people lines | a context with no events and one discovered pattern, or one resolved person, is answered as if events were found | report the number of retrieved events, so that no events gives the no-events message | not executed | MemoryContext.SimpleAnswerAsWritten | MemoryContext.SimpleAnswer |
| app/agent/factory.py:274-279 | the test for "формальн" comes first, and "неформальн" contains it, so an informal style reads as formal (0.8) | communication style "неформальный" | an informal style gives the low formality 0.3 | not executed | Factory.StyleFormalityAsWritten | Factory.StyleFormality |
