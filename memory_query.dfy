// The question-analysis steps of the Life-Stream memory search
// (`MemoryRAG` in app/life_stream/api/memory.py): the time range a
// question names, the event types its words point to, the search keywords,
// and the confidence given to an answer.

module MemoryQuery {
  import opened Wrappers
  import opened Text
  import opened LifeStreamModels
  import opened Clock

  // ---------------------------------------------------------------------
  // _parse_time_from_question

  /** The phrase rules, in the order they are tried. */
  datatype TimeRule = Today | Yesterday | LastFriday | Weekend | LastWeek | LastMonth | DefaultWeek

  /** The phrase groups of the rules, each looked for in the lower-cased question. */
  predicate TodayPhrase(q: string) { Contains(q, "сегодня") }
  predicate YesterdayPhrase(q: string) { Contains(q, "вчера") }
  predicate FridayPhrase(q: string) { Contains(q, "прошлую пятницу") || Contains(q, "в пятницу") }
  predicate WeekendPhrase(q: string) { Contains(q, "выходные") || Contains(q, "weekend") }
  predicate WeekPhrase(q: string) { Contains(q, "неделю") || Contains(q, "week") }
  predicate MonthPhrase(q: string) { Contains(q, "месяц") || Contains(q, "month") }

  /**
   * The first rule whose phrase occurs in the lower-cased question: each rule
   * is chosen exactly when its phrase occurs and no earlier rule's does.
   */
  function TimeRuleOf(question: string): (rule: TimeRule)
    ensures var q := Lower(question);
      (rule == Today <==> TodayPhrase(q))
      && (rule == Yesterday <==> !TodayPhrase(q) && YesterdayPhrase(q))
      && (rule == LastFriday <==> !TodayPhrase(q) && !YesterdayPhrase(q) && FridayPhrase(q))
      && (rule == Weekend <==> !TodayPhrase(q) && !YesterdayPhrase(q) && !FridayPhrase(q) && WeekendPhrase(q))
      && (rule == LastWeek <==> !TodayPhrase(q) && !YesterdayPhrase(q) && !FridayPhrase(q) && !WeekendPhrase(q)
                                && WeekPhrase(q))
      && (rule == LastMonth <==> !TodayPhrase(q) && !YesterdayPhrase(q) && !FridayPhrase(q) && !WeekendPhrase(q)
                                 && !WeekPhrase(q) && MonthPhrase(q))
      && (rule == DefaultWeek <==> !TodayPhrase(q) && !YesterdayPhrase(q) && !FridayPhrase(q) && !WeekendPhrase(q)
                                   && !WeekPhrase(q) && !MonthPhrase(q))
  {
    var q := Lower(question);
    if Contains(q, "сегодня") then Today
    else if Contains(q, "вчера") then Yesterday
    else if Contains(q, "прошлую пятницу") || Contains(q, "в пятницу") then LastFriday
    else if Contains(q, "выходные") || Contains(q, "weekend") then Weekend
    else if Contains(q, "неделю") || Contains(q, "week") then LastWeek
    else if Contains(q, "месяц") || Contains(q, "month") then LastMonth
    else DefaultWeek
  }

  /**
   * A question about the weekend also contains "week", yet the weekend rule
   * is tried first and wins.
   */
  lemma WeekendBeforeWeek(question: string)
    requires var q := Lower(question); Contains(q, "weekend") && !TodayPhrase(q) && !YesterdayPhrase(q) && !FridayPhrase(q)
    ensures WeekPhrase(Lower(question)) && TimeRuleOf(question) == Weekend
  {
    var weekend := "weekend";
    ContainsSlice(weekend, 0, 4);
    assert weekend[0..4] == "week";
    ContainsTransitive(Lower(question), weekend, "week");
  }

  /** `(now.weekday() - 4) % 7`, with 0 replaced by 7: the last Friday strictly before today. */
  function DaysSinceFriday(now: Instant): (d: int)
    ensures 1 <= d <= 7
  {
    var d := (Weekday(now) - 4) % 7;
    if d == 0 then 7 else d
  }

  /** `(now.weekday() + 1) % 7`: today when today is Sunday. */
  function DaysSinceSunday(now: Instant): (d: int)
    ensures 0 <= d <= 6
    ensures d == 0 <==> Weekday(now) == 6
  {
    (Weekday(now) + 1) % 7
  }

  /** The (start, end) range of a rule. */
  function RangeFor(rule: TimeRule, now: Instant): (Instant, Instant)
  {
    match rule
    case Today => (Midnight(now), now)
    case Yesterday =>
      var yesterday := now - Days(1);
      (Midnight(yesterday), LastSecond(yesterday))
    case LastFriday =>
      var friday := now - Days(DaysSinceFriday(now));
      (Midnight(friday), LastSecond(friday))
    case Weekend =>
      var sunday := now - Days(DaysSinceSunday(now));
      var saturday := sunday - Days(1);
      (Midnight(saturday), LastSecond(sunday))
    case LastWeek => (now - Days(7), now)
    case LastMonth => (now - Days(30), now)
    case DefaultWeek => (now - Days(7), now)
  }

  /** `_parse_time_from_question`: both supplied dates win; one alone is ignored. */
  function ResolveTimeRange(question: string, start: Option<Instant>, end: Option<Instant>, now: Instant): (r: (Instant, Instant))
    ensures start.Some? && end.Some? ==> r == (start.value, end.value)
    ensures start.None? || end.None? ==> r == RangeFor(TimeRuleOf(question), now)
  {
    if start.Some? && end.Some? then (start.value, end.value)
    else RangeFor(TimeRuleOf(question), now)
  }

  /**
   * Every rule's range starts no later than it ends. It ends no later than
   * now, except the weekend asked on a Sunday, which runs to 23:59:59 today.
   */
  lemma RangeOrdered(rule: TimeRule, now: Instant)
    ensures RangeFor(rule, now).0 <= RangeFor(rule, now).1
    ensures rule != Weekend || Weekday(now) != 6 ==> RangeFor(rule, now).1 <= now
    ensures rule == Weekend && Weekday(now) == 6 ==> RangeFor(rule, now).1 >= now
  {
    match rule
    case Yesterday =>
      EarlierDayOrdered(now, 1);
    case LastFriday =>
      EarlierDayOrdered(now, DaysSinceFriday(now));
    case Weekend =>
      WeekendOrdered(now);
    case _ =>
  }

  /** A whole day k >= 1 days back lies before now. */
  lemma EarlierDayOrdered(now: Instant, k: int)
    requires k >= 1
    ensures Midnight(now - Days(k)) <= LastSecond(now - Days(k)) <= now
  {
    DayBounds(now - Days(k));
  }

  lemma WeekendOrdered(now: Instant)
    ensures RangeFor(Weekend, now).0 <= RangeFor(Weekend, now).1
    ensures Weekday(now) != 6 ==> RangeFor(Weekend, now).1 <= now
    ensures Weekday(now) == 6 ==> RangeFor(Weekend, now).1 >= now
  {
    var k := DaysSinceSunday(now);
    var sunday := now - Days(k);
    WeekendSpan(sunday);
    if k != 0 {
      EarlierDayOrdered(now, k);
    }
  }

  /** Saturday's midnight comes before Sunday, and Sunday before its last second. */
  lemma WeekendSpan(sunday: Instant)
    ensures Midnight(sunday - Days(1)) <= sunday <= LastSecond(sunday)
  {
    LastSecondCovers(sunday);
  }

  /** A start before the end whenever the range comes from the question. */
  lemma DerivedRangeOrdered(question: string, start: Option<Instant>, end: Option<Instant>, now: Instant)
    requires start.None? || end.None?
    ensures ResolveTimeRange(question, start, end, now).0 <= ResolveTimeRange(question, start, end, now).1
  {
    RangeOrdered(TimeRuleOf(question), now);
  }

  /** Yesterday covers one calendar day from midnight to 23:59:59. */
  lemma YesterdayRange(now: Instant)
    ensures var (s, e) := RangeFor(Yesterday, now);
      DayNumber(s) == DayNumber(e) == DayNumber(now) - 1
      && TimeOfDay(s) == 0 && TimeOfDay(e) == 86399 * MicrosPerSecond + Microsecond(now)
  {
    ShiftDays(now, 1);
  }

  /** The Friday is a Friday 1 to 7 days back, 7 exactly when today is Friday. */
  lemma LastFridayRange(now: Instant)
    ensures var (s, e) := RangeFor(LastFriday, now);
      Weekday(s) == 4 && DayNumber(s) == DayNumber(e)
      && 1 <= DayNumber(now) - DayNumber(s) <= 7
      && (DayNumber(now) - DayNumber(s) == 7 <==> Weekday(now) == 4)
      && TimeOfDay(s) == 0 && TimeOfDay(e) == 86399 * MicrosPerSecond + Microsecond(now)
  {
    ShiftDays(now, DaysSinceFriday(now));
  }

  /** The weekend runs from Saturday midnight to Sunday 23:59:59; the Sunday is today when today is Sunday. */
  lemma WeekendRange(now: Instant)
    ensures var (s, e) := RangeFor(Weekend, now);
      Weekday(s) == 5 && Weekday(e) == 6 && DayNumber(e) == DayNumber(s) + 1
      && 0 <= DayNumber(now) - DayNumber(e) <= 6
      && (DayNumber(e) == DayNumber(now) <==> Weekday(now) == 6)
      && TimeOfDay(s) == 0 && TimeOfDay(e) == 86399 * MicrosPerSecond + Microsecond(now)
  {
    var k := DaysSinceSunday(now);
    var sunday := now - Days(k);
    ShiftDays(now, k);
    ShiftDays(sunday, 1);
    assert Weekday(sunday) == 6;
    assert k == 0 <==> Weekday(now) == 6;
  }

  /** A question naming no period gets the last seven days. */
  lemma DefaultRange(question: string, now: Instant)
    requires TimeRuleOf(question) == DefaultWeek
    ensures ResolveTimeRange(question, None, None, now) == (now - Days(7), now)
  {
  }

  // ---------------------------------------------------------------------
  // _infer_event_types

  const PlaceWords: seq<string> := ["где", "был", "место", "адрес", "локация"]
  const MealWords: seq<string> := ["обедал", "ел", "кафе", "ресторан", "еда"]
  const PeopleWords: seq<string> := ["кем", "встреча", "встречался", "person"]
  const SpendingWords: seq<string> := ["потратил", "купил", "покупка", "деньги", "оплата"]
  const HealthWords: seq<string> := ["шагов", "сон", "пульс", "здоровье", "активность"]

  /**
   * The event types the question's words point to, or None when no word
   * group matches. Python returns `list(set(types))`, whose order is that
   * of the set; the model returns the set.
   */
  function InferEventTypes(question: string): (r: Option<set<EventType>>)
    ensures var q := Lower(question);
      r.None? <==> (!AnyIn(PlaceWords, q) && !AnyIn(MealWords, q) && !AnyIn(PeopleWords, q)
                    && !AnyIn(SpendingWords, q) && !AnyIn(HealthWords, q))
    ensures var q := Lower(question);
      r.Some? ==> r.value != {}
                  && (Geo in r.value <==> AnyIn(PlaceWords, q) || AnyIn(MealWords, q))
                  && (Purchase in r.value <==> AnyIn(MealWords, q) || AnyIn(SpendingWords, q))
                  && (Social in r.value <==> AnyIn(PeopleWords, q))
                  && (Health in r.value <==> AnyIn(HealthWords, q))
                  && r.value <= {Geo, Purchase, Social, Health}
  {
    var q := Lower(question);
    var types :=
      (if AnyIn(PlaceWords, q) then {Geo} else {})
      + (if AnyIn(MealWords, q) then {Geo, Purchase} else {})
      + (if AnyIn(PeopleWords, q) then {Social} else {})
      + (if AnyIn(SpendingWords, q) then {Purchase} else {})
      + (if AnyIn(HealthWords, q) then {Health} else {});
    if types == {} then None else Some(types)
  }

  // ---------------------------------------------------------------------
  // _extract_keywords

  const StopWords: set<string> := {
    "я", "мы", "с", "кем", "где", "когда", "как", "сколько",
    "в", "на", "за", "по", "был", "была", "были", "что",
    "the", "a", "is", "was", "were", "with", "who", "where"}

  predicate IsKeyword(w: string)
  {
    w !in StopWords && |w| > 2
  }

  /** `[w for w in words if w not in stop_words and len(w) > 2]`. */
  function KeepKeywords(words: seq<string>): (r: seq<string>)
    ensures |r| <= |words|
    ensures forall i :: 0 <= i < |r| ==> r[i] in words && IsKeyword(r[i])
    ensures forall i :: 0 <= i < |words| && IsKeyword(words[i]) ==> words[i] in r
  {
    if words == [] then []
    else
      var rest := KeepKeywords(words[1..]);
      assert forall i :: 1 <= i < |words| ==> words[i] == words[1..][i - 1];
      if IsKeyword(words[0]) then [words[0]] + rest else rest
  }

  /** The filter keeps question order: filtering a concatenation concatenates the filtered parts. */
  lemma {:induction false} KeepKeywordsAppend(a: seq<string>, b: seq<string>)
    ensures KeepKeywords(a + b) == KeepKeywords(a) + KeepKeywords(b)
  {
    if a == [] {
      assert a + b == b;
    } else {
      assert (a + b)[0] == a[0];
      assert (a + b)[1..] == a[1..] + b;
      KeepKeywordsAppend(a[1..], b);
    }
  }

  /** `_extract_keywords`: the lower-cased whitespace tokens that are keywords. */
  function ExtractKeywords(question: string): (r: seq<string>)
    ensures forall i :: 0 <= i < |r| ==> IsKeyword(r[i]) && r[i] in SplitWords(Lower(question))
    ensures forall w :: w in SplitWords(Lower(question)) && IsKeyword(w) ==> w in r
  {
    KeepKeywords(SplitWords(Lower(question)))
  }

  /** The searched keywords: the first three, `keywords[:3]`. */
  function SearchedKeywords(question: string): (r: seq<string>)
    ensures |r| <= 3 && |r| <= |ExtractKeywords(question)| && r == ExtractKeywords(question)[..|r|]
    ensures |ExtractKeywords(question)| >= 3 ==> |r| == 3
  {
    Take(ExtractKeywords(question), 3)
  }

  // ---------------------------------------------------------------------
  // _calculate_confidence

  const HedgingWords: seq<string> := ["возможно", "вероятно", "не уверен", "недостаточно", "нет данных"]

  /** How many of `words` occur in `s`. */
  function CountPresent(words: seq<string>, s: string): (n: nat)
    ensures n <= |words|
    ensures n == 0 <==> !AnyIn(words, s)
  {
    if words == [] then 0
    else
      var rest := CountPresent(words[1..], s);
      assert AnyIn(words, s) <==> Contains(s, words[0]) || AnyIn(words[1..], s) by {
        if AnyIn(words, s) {
          var i :| 0 <= i < |words| && Contains(s, words[i]);
          if i > 0 { assert words[1..][i - 1] == words[i]; }
        }
        if AnyIn(words[1..], s) {
          var i :| 0 <= i < |words[1..]| && Contains(s, words[1..][i]);
          assert words[i + 1] == words[1..][i];
        }
      }
      (if Contains(s, words[0]) then 1 else 0) + rest
  }

  /** The score before clamping: 0.5 plus up to 0.5 for the events, minus 0.1 per hedging phrase. */
  function RawConfidence(eventCount: nat, answer: string): real
  {
    0.5 + MinReal(0.5, eventCount as real / 100.0) - 0.1 * CountPresent(HedgingWords, Lower(answer)) as real
  }

  /** `_calculate_confidence`: 0.1 without events, else the raw score clamped to [0.1, 0.95]. */
  function Confidence(eventCount: nat, answer: string): (c: real)
    ensures 0.1 <= c <= 0.95
    ensures eventCount == 0 ==> c == 0.1
    ensures eventCount > 0 ==> c == MaxReal(0.1, MinReal(0.95, RawConfidence(eventCount, answer)))
  {
    if eventCount == 0 then 0.1
    else MaxReal(0.1, MinReal(0.95, RawConfidence(eventCount, answer)))
  }

  /** More events never lower the confidence of the same answer. */
  lemma ConfidenceMonotone(m: nat, n: nat, answer: string)
    requires m <= n
    ensures Confidence(m, answer) <= Confidence(n, answer)
  {
  }

  /** An answer without hedging, backed by at least 45 events, gets the ceiling 0.95. */
  lemma ConfidenceCeiling(n: nat, answer: string)
    requires n >= 45 && !AnyIn(HedgingWords, Lower(answer))
    ensures Confidence(n, answer) == 0.95
  {
  }

  /** An answer with more hedging phrases never gets more confidence from the same events. */
  lemma HedgingLowersConfidence(n: nat, hedged: string, plain: string)
    requires CountPresent(HedgingWords, Lower(hedged)) >= CountPresent(HedgingWords, Lower(plain))
    ensures Confidence(n, hedged) <= Confidence(n, plain)
  {
  }

  /** Every hedging phrase, with at most ten events, drives the confidence down to the floor 0.1. */
  lemma ConfidenceFloor(n: nat, answer: string)
    requires 0 < n <= 10 && CountPresent(HedgingWords, Lower(answer)) == |HedgingWords|
    ensures Confidence(n, answer) == 0.1
  {
  }
}
