// The agent factory of app/agent/factory.py: personality traits read from
// the owner's profile hints, the system prompt filled from its template, the
// personality description, the short context summary and the style filter
// over the owner's liked concepts. The profile and the preference rows come
// out of the graph database and are parameters here.

module Factory {
  import opened Wrappers
  import opened Text
  import opened AgentModels

  // ---------------------------------------------------------------------
  // Inputs

  /** The person record as `_get_user_profile` returns it (string properties, companies collected). */
  datatype Profile = Profile(
    name: Option<string>, bio: Option<string>, companies: seq<string>, location: Option<string>,
    personalityType: Option<string>, communicationStyle: Option<string>, decisionMaking: Option<string>)

  /** A liked concept row: its name and category. */
  datatype Concept = Concept(name: string, category: Option<string>)

  /** A habit row: its name and description. */
  datatype Habit = Habit(name: string, description: Option<string>)

  /** The dict `_get_user_preferences` returns. */
  datatype Preferences = Preferences(
    brands: seq<string>, styles: seq<string>, concepts: seq<Concept>, lifestyle: seq<string>, habits: seq<Habit>)

  /** `profile.get(key)` is truthy: present and not the empty string. */
  predicate Given(o: Option<string>)
  {
    o.Some? && o.value != ""
  }

  /** Python's `s or fallback` on strings. */
  function OrElse(s: string, fallback: string): (r: string)
    ensures s != "" ==> r == s
    ensures s == "" ==> r == fallback
  {
    if s == "" then fallback else s
  }

  // ---------------------------------------------------------------------
  // _get_user_preferences: the style filter

  predicate IsStyle(c: Concept)
  {
    c.category == Some("style") || c.category == Some("taste")
  }

  /** `[r["name"] for r in records if r.get("category") in ("style", "taste")]`. */
  function Styles(concepts: seq<Concept>): (styles: seq<string>)
    ensures |styles| <= |concepts|
    ensures forall x :: x in styles <==> exists c :: c in concepts && IsStyle(c) && c.name == x
  {
    if concepts == [] then []
    else
      var rest := Styles(concepts[1..]);
      assert forall c :: c in concepts <==> c == concepts[0] || c in concepts[1..];
      if IsStyle(concepts[0]) then [concepts[0].name] + rest else rest
  }

  /** Styles keep the order of the concept rows: a style row followed by others gives its name first. */
  lemma {:induction false} StylesKeepOrder(c: Concept, concepts: seq<Concept>)
    ensures IsStyle(c) ==> Styles([c] + concepts) == [c.name] + Styles(concepts)
    ensures !IsStyle(c) ==> Styles([c] + concepts) == Styles(concepts)
  {
    assert ([c] + concepts)[1..] == concepts;
  }

  /**
   * `_get_user_preferences`: the four queries run in order and fill brands,
   * concepts with their styles, lifestyle and habits; `completed` counts the
   * queries that returned before an exception ended the block, and what was
   * not reached keeps its empty default.
   */
  function UserPreferences(completed: nat, brandRows: seq<string>, conceptRows: seq<Concept>,
                           lifestyleRows: seq<string>, habitRows: seq<Habit>): (p: Preferences)
    ensures p.brands == (if completed >= 1 then brandRows else [])
    ensures p.concepts == (if completed >= 2 then conceptRows else [])
    ensures p.styles == Styles(p.concepts)
    ensures p.lifestyle == (if completed >= 3 then lifestyleRows else [])
    ensures p.habits == (if completed >= 4 then habitRows else [])
  {
    var concepts := if completed >= 2 then conceptRows else [];
    Preferences(if completed >= 1 then brandRows else [], Styles(concepts), concepts,
                if completed >= 3 then lifestyleRows else [], if completed >= 4 then habitRows else [])
  }

  // ---------------------------------------------------------------------
  // _extract_personality

  /**
   * The formality a lower-cased communication style names, as the code is
   * written: "формальн" is checked first, so a style containing
   * "неформальн" (which contains "формальн") never reaches the 0.3 branch.
   */
  function StyleFormalityAsWritten(style: string): (r: Option<real>)
    ensures Contains(style, "формальн") ==> r == Some(0.8)
    ensures !Contains(style, "формальн") ==> (r.Some? <==> Contains(style, "дружеск") || Contains(style, "неформальн"))
  {
    if Contains(style, "формальн") then Some(0.8)
    else if Contains(style, "дружеск") || Contains(style, "неформальн") then Some(0.3)
    else None
  }

  /** Every informal style is read as formal by the code as written. */
  lemma InformalReadAsFormal(style: string)
    requires Contains(style, "неформальн")
    ensures StyleFormalityAsWritten(style) == Some(0.8)
  {
    var informal := "неформальн";
    ContainsSlice(informal, 2, |informal|);
    assert informal[2..] == "формальн";
    ContainsTransitive(style, informal, "формальн");
  }

  /**
   * The formality as evidently intended: an informal style gives 0.3, and
   * every other style reads as the code does.
   */
  function StyleFormality(style: string): (r: Option<real>)
    ensures Contains(style, "неформальн") ==> r == Some(0.3)
    ensures !Contains(style, "неформальн") ==> r == StyleFormalityAsWritten(style)
  {
    if Contains(style, "неформальн") then Some(0.3)
    else if Contains(style, "формальн") then Some(0.8)
    else if Contains(style, "дружеск") then Some(0.3)
    else None
  }

  /** The risk tolerance a lower-cased decision style names: analytic 0.3, else intuitive 0.7. */
  function DecisionRisk(decision: string): (r: Option<real>)
    ensures r == Some(0.3) <==> Contains(decision, "аналитик")
    ensures r == Some(0.7) <==> !Contains(decision, "аналитик") && Contains(decision, "интуит")
    ensures r.None? <==> !Contains(decision, "аналитик") && !Contains(decision, "интуит")
  {
    if Contains(decision, "аналитик") then Some(0.3)
    else if Contains(decision, "интуит") then Some(0.7)
    else None
  }

  /**
   * `_extract_personality`: default traits, each profile hint overriding its
   * trait in turn; the personality type is copied into the custom traits.
   * The formality follows the intended reading of the style.
   */
  method ExtractPersonality(profile: Profile) returns (traits: PersonalityTraits)
    ensures ValidTraits(traits)
    ensures traits.verbosity == traits.aggressiveness == traits.priceSensitivity == traits.speedPriority == 0.5
    ensures traits.customTraits == if Given(profile.personalityType) then [("personality_type", profile.personalityType.value)] else []
    ensures !Given(profile.communicationStyle) ==> traits.formality == 0.5
    ensures Given(profile.communicationStyle) ==>
              traits.formality == StyleFormality(Lower(profile.communicationStyle.value)).GetOr(0.5)
    ensures !Given(profile.decisionMaking) ==> traits.riskTolerance == 0.5
    ensures Given(profile.decisionMaking) ==>
              traits.riskTolerance == DecisionRisk(Lower(profile.decisionMaking.value)).GetOr(0.5)
  {
    traits := DefaultTraits();
    if Given(profile.personalityType) {
      traits := traits.(customTraits := [("personality_type", profile.personalityType.value)]);
    }
    if Given(profile.communicationStyle) {
      var style := Lower(profile.communicationStyle.value);
      var formality := StyleFormality(style);
      if formality.Some? {
        traits := traits.(formality := formality.value);
      }
    }
    if Given(profile.decisionMaking) {
      var decision := Lower(profile.decisionMaking.value);
      var risk := DecisionRisk(decision);
      if risk.Some? {
        traits := traits.(riskTolerance := risk.value);
      }
    }
  }

  // ---------------------------------------------------------------------
  // _build_system_prompt

  function FormalStyle(): string { "формальным и вежливым" }
  function InformalStyle(): string { "неформальным и дружелюбным" }
  function BalancedStyle(): string { "сбалансированным" }

  /** The formality bucket: above 0.7 formal, below 0.3 informal, otherwise balanced. */
  function FormalityStyle(formality: real): (r: string)
    ensures r == FormalStyle() <==> formality > 0.7
    ensures r == InformalStyle() <==> formality < 0.3
    ensures r == BalancedStyle() <==> 0.3 <= formality <= 0.7
  {
    assert FormalStyle()[0] != InformalStyle()[0] && FormalStyle()[0] != BalancedStyle()[0]
           && InformalStyle()[0] != BalancedStyle()[0];
    if formality > 0.7 then FormalStyle()
    else if formality < 0.3 then InformalStyle()
    else BalancedStyle()
  }

  function HardBargain(): string { "торгуйся агрессивно, не уступай легко" }
  function SoftBargain(): string { "будь мягким, ищи компромиссы" }
  function FirmBargain(): string { "будь настойчивым, но разумным" }

  /** The negotiation bucket, with the same thresholds on aggressiveness. */
  function NegotiationStyle(aggressiveness: real): (r: string)
    ensures r == HardBargain() <==> aggressiveness > 0.7
    ensures r == SoftBargain() <==> aggressiveness < 0.3
    ensures r == FirmBargain() <==> 0.3 <= aggressiveness <= 0.7
  {
    assert HardBargain()[0] != SoftBargain()[0] && HardBargain()[0] != FirmBargain()[0];
    assert SoftBargain()[5] != FirmBargain()[5];
    if aggressiveness > 0.7 then HardBargain()
    else if aggressiveness < 0.3 then SoftBargain()
    else FirmBargain()
  }

  /** `ROLE_DESCRIPTIONS[role]`. */
  function RoleDescription(role: AgentRole): string
  {
    match role
    case Buyer => "Ты покупатель. Твоя задача — найти лучшие товары по лучшим ценам для своего хозяина."
    case Seller => "Ты продавец. Твоя задача — продать товары с максимальной выгодой, сохраняя репутацию."
    case Assistant => "Ты персональный помощник. Твоя задача — помогать хозяину в повседневных делах."
    case Negotiator => "Ты переговорщик. Твоя задача — вести переговоры и добиваться лучших условий."
    case Researcher => "Ты исследователь. Твоя задача — находить информацию и анализировать данные."
  }

  /** `ROLE_RULES[role]`. */
  function RoleRules(role: AgentRole): string
  {
    match role
    case Buyer => "Не превышай бюджет без разрешения. Проверяй надежность продавцов."
    case Seller => "Не продавай ниже себестоимости. Предлагай дополнительные услуги."
    case Assistant => "Спрашивай уточнения, если задача неясна."
    case Negotiator => "Никогда не соглашайся на первое предложение. Ищи win-win решения."
    case Researcher => "Проверяй факты из нескольких источников."
  }

  /** The lines describing the owner, each present only when its field is. */
  function ProfileLines(profile: Profile): (lines: seq<string>)
    ensures lines == [] <==> !Given(profile.name) && !Given(profile.bio) && profile.companies == [] && !Given(profile.location)
    ensures forall i :: 0 <= i < |lines| ==> lines[i] != ""
  {
    (if Given(profile.name) then ["Имя: " + profile.name.value] else [])
    + (if Given(profile.bio) then ["О себе: " + profile.bio.value] else [])
    + (if profile.companies != [] then ["Работает в: " + Join(profile.companies, ", ")] else [])
    + (if Given(profile.location) then ["Локация: " + profile.location.value] else [])
  }

  function NoProfile(): string { "Информация о пользователе недоступна" }

  /** The owner's description, or the notice that nothing is known. */
  function ProfileText(profile: Profile): (r: string)
    ensures r == NoProfile() <==> ProfileLines(profile) == []
  {
    var lines := ProfileLines(profile);
    assert lines != [] ==> Join(lines, "\n") != "" && Join(lines, "\n") != NoProfile() by {
      if lines != [] {
        JoinStartsWithFirst(lines, "\n");
        var first := lines[0];
        assert first[0] != NoProfile()[0] || first[1] != NoProfile()[1];
      }
    }
    OrElse(Join(lines, "\n"), NoProfile())
  }

  function Undefined(): string { "не определены" }

  /**
   * A comma-separated list, or "не определены" when the joined text is
   * empty: for no items, or for one empty item. Two or more items always
   * join to something, even when they are empty (["", "a"] gives ", a").
   */
  function ListText(items: seq<string>): (r: string)
    ensures items == [] || items == [""] ==> r == Undefined()
    ensures items != [] && items[0] != "" ==> r == Join(items, ", ")
    ensures |items| >= 2 ==> r == Join(items, ", ")
  {
    assert items != [] && items[0] != "" ==> Join(items, ", ") != "" by {
      if items != [] && items[0] != "" {
        JoinStartsWithFirst(items, ", ");
      }
    }
    assert |items| >= 2 ==> Join(items, ", ") != "" by {
      if |items| >= 2 {
        assert Join(items, ", ") == items[0] + ", " + Join(items[1..], ", ");
      }
    }
    OrElse(Join(items, ", "), Undefined())
  }

  /** The names of the liked concepts, in order. */
  function ConceptNames(concepts: seq<Concept>): (names: seq<string>)
    ensures |names| == |concepts|
    ensures forall i :: 0 <= i < |concepts| ==> names[i] == concepts[i].name
  {
    seq(|concepts|, i requires 0 <= i < |concepts| => concepts[i].name)
  }

  /** The values the template is filled with. */
  datatype PromptSlots = PromptSlots(
    agentName: string, roleDescription: string, userProfile: string, personalityDescription: string,
    preferredBrands: string, preferredStyles: string, interests: string, roleRules: string,
    formalityStyle: string, negotiationStyle: string)

  /** `SYSTEM_PROMPT_TEMPLATE.format(...)`. */
  function Render(s: PromptSlots): string
  {
    "Ты — персональный AI-агент " + s.agentName + ".\n\n"
    + "## Твоя роль\n" + s.roleDescription + "\n\n"
    + "## О твоём хозяине\n" + s.userProfile + "\n\n"
    + "## Личностные черты\n" + s.personalityDescription + "\n\n"
    + "## Предпочтения\n"
    + "- Любимые бренды: " + s.preferredBrands + "\n"
    + "- Предпочитаемые стили: " + s.preferredStyles + "\n"
    + "- Интересы: " + s.interests + "\n\n"
    + "## Правила поведения\n"
    + "1. Всегда действуй в интересах своего хозяина\n"
    + "2. Учитывай его предпочтения при принятии решений\n"
    + "3. " + s.roleRules + "\n"
    + "4. Будь " + s.formalityStyle + " в общении\n"
    + "5. При торге " + s.negotiationStyle + "\n\n"
    + "## Инструменты\n"
    + "Ты можешь использовать следующие инструменты:\n"
    + "- search_products: Поиск товаров в каталоге\n"
    + "- get_price: Получение цены товара\n"
    + "- send_message: Отправка сообщения другому агенту\n"
    + "- make_offer: Сделать предложение продавцу\n"
    + "- accept_offer: Принять предложение\n"
    + "- reject_offer: Отклонить предложение\n"
    + "- request_delivery: Запросить доставку\n"
    + "- confirm_payment: Подтвердить оплату\n\n"
    + "Отвечай на русском языке.\n"
  }

  /**
   * The slot values of `_build_system_prompt`: the owner's description, the
   * named buckets of formality and aggressiveness, the brands, the styles
   * and at most ten interests, each "не определены" when empty.
   */
  function SystemPromptSlots(name: string, role: AgentRole, profile: Profile, personality: PersonalityTraits,
                             preferences: Preferences): (s: PromptSlots)
    ensures s.agentName == name && s.roleDescription == RoleDescription(role) && s.roleRules == RoleRules(role)
    ensures s.userProfile == ProfileText(profile)
    ensures s.personalityDescription == PersonalityDescription(personality)
    ensures s.formalityStyle == FormalityStyle(personality.formality)
    ensures s.negotiationStyle == NegotiationStyle(personality.aggressiveness)
    ensures s.preferredBrands == ListText(preferences.brands) && s.preferredStyles == ListText(preferences.styles)
    ensures preferences.brands == [] ==> s.preferredBrands == Undefined()
    ensures preferences.styles == [] ==> s.preferredStyles == Undefined()
    ensures preferences.concepts == [] ==> s.interests == Undefined()
    ensures s.interests == ListText(ConceptNames(Take(preferences.concepts, 10)))
  {
    var interests := ConceptNames(preferences.concepts);
    assert Take(interests, 10) == ConceptNames(Take(preferences.concepts, 10));
    PromptSlots(name, RoleDescription(role), ProfileText(profile), PersonalityDescription(personality),
                ListText(preferences.brands), ListText(preferences.styles), ListText(Take(interests, 10)),
                RoleRules(role), FormalityStyle(personality.formality), NegotiationStyle(personality.aggressiveness))
  }

  /** `_build_system_prompt`. */
  function SystemPrompt(name: string, role: AgentRole, profile: Profile, personality: PersonalityTraits,
                        preferences: Preferences): string
  {
    Render(SystemPromptSlots(name, role, profile, personality, preferences))
  }

  /** The slots read only the first ten liked concepts, and neither lifestyle nor habits. */
  lemma SlotsReadTenInterests(name: string, role: AgentRole, profile: Profile, personality: PersonalityTraits,
                              p: Preferences, q: Preferences)
    requires p.brands == q.brands && p.styles == q.styles && Take(p.concepts, 10) == Take(q.concepts, 10)
    ensures SystemPromptSlots(name, role, profile, personality, p) == SystemPromptSlots(name, role, profile, personality, q)
  {
  }

  /** The prompt reads only the first ten liked concepts and ignores lifestyle and habits. */
  lemma PromptReadsTenInterests(name: string, role: AgentRole, profile: Profile, personality: PersonalityTraits,
                                p: Preferences, q: Preferences)
    requires p.brands == q.brands && p.styles == q.styles && Take(p.concepts, 10) == Take(q.concepts, 10)
    ensures SystemPrompt(name, role, profile, personality, p) == SystemPrompt(name, role, profile, personality, q)
  {
    SlotsReadTenInterests(name, role, profile, personality, p, q);
  }

  // ---------------------------------------------------------------------
  // _describe_personality

  function StandardProfile(): string { "Стандартный профиль" }

  /** The phrases for the extreme formality, price sensitivity and speed priority scores, in that order. */
  function ExtremeParts(p: PersonalityTraits): (parts: seq<string>)
    ensures parts == [] <==> 0.3 <= p.formality <= 0.7 && 0.3 <= p.priceSensitivity <= 0.7 && 0.3 <= p.speedPriority <= 0.7
    ensures |parts| <= 3
  {
    (if p.formality > 0.7 then ["Предпочитает формальное общение"]
     else if p.formality < 0.3 then ["Предпочитает неформальное общение"] else [])
    + (if p.priceSensitivity > 0.7 then ["Очень чувствителен к ценам"]
       else if p.priceSensitivity < 0.3 then ["Качество важнее цены"] else [])
    + (if p.speedPriority > 0.7 then ["Ценит скорость"]
       else if p.speedPriority < 0.3 then ["Предпочитает тщательность"] else [])
  }

  /** No extreme phrase starts as the standard profile text does. */
  lemma ExtremePartsStart(p: PersonalityTraits)
    ensures forall x :: x in ExtremeParts(p) ==> x != [] && x[0] != StandardProfile()[0]
  {
  }

  /** `f"{trait}: {value}"` for each custom trait, in insertion order. */
  function CustomParts(traits: seq<(string, string)>): (parts: seq<string>)
    ensures |parts| == |traits|
  {
    if traits == [] then []
    else CustomParts(traits[..|traits| - 1]) + [traits[|traits| - 1].0 + ": " + traits[|traits| - 1].1]
  }

  /** A custom-trait phrase holds a colon right after the trait name. */
  lemma {:induction false} CustomPartAt(traits: seq<(string, string)>, i: nat)
    requires i < |traits|
    ensures CustomParts(traits)[i] == traits[i].0 + ": " + traits[i].1
  {
    if i < |traits| - 1 {
      CustomPartAt(traits[..|traits| - 1], i);
    }
  }

  /** `_describe_personality`: the phrases joined by "; ", or "Стандартный профиль" when there are none. */
  function PersonalityDescription(p: PersonalityTraits): string
  {
    var parts := ExtremeParts(p) + CustomParts(p.customTraits);
    if parts == [] then StandardProfile() else Join(parts, "; ")
  }

  /** The standard profile is reported exactly when no score is extreme and there are no custom traits. */
  lemma StandardProfileIff(p: PersonalityTraits)
    ensures PersonalityDescription(p) == StandardProfile() <==>
              0.3 <= p.formality <= 0.7 && 0.3 <= p.priceSensitivity <= 0.7 && 0.3 <= p.speedPriority <= 0.7
              && p.customTraits == []
  {
    var parts := ExtremeParts(p) + CustomParts(p.customTraits);
    if parts != [] {
      JoinStartsWithFirst(parts, "; ");
      var first := parts[0];
      var standard := StandardProfile();
      if ExtremeParts(p) != [] {
        ExtremePartsStart(p);
        assert first in ExtremeParts(p);
      } else {
        CustomPartAt(p.customTraits, 0);
        var name := p.customTraits[0].0;
        assert first == name + ": " + p.customTraits[0].1;
        assert first[|name|] == ':';
        var joined := Join(parts, "; ");
        assert joined[|name|] == ':';
        if |name| < |standard| {
          assert standard[|name|] != ':';
        }
      }
    }
  }

  /** `_describe_personality`, building the phrases step by step. */
  method DescribePersonality(p: PersonalityTraits) returns (description: string)
    ensures description == PersonalityDescription(p)
  {
    var parts: seq<string> := [];
    if p.formality > 0.7 {
      parts := parts + ["Предпочитает формальное общение"];
    } else if p.formality < 0.3 {
      parts := parts + ["Предпочитает неформальное общение"];
    }
    if p.priceSensitivity > 0.7 {
      parts := parts + ["Очень чувствителен к ценам"];
    } else if p.priceSensitivity < 0.3 {
      parts := parts + ["Качество важнее цены"];
    }
    if p.speedPriority > 0.7 {
      parts := parts + ["Ценит скорость"];
    } else if p.speedPriority < 0.3 {
      parts := parts + ["Предпочитает тщательность"];
    }
    assert parts == ExtremeParts(p);
    parts := AppendCustomParts(parts, p.customTraits);
    description := if parts == [] then StandardProfile() else Join(parts, "; ");
  }

  /** The loop of `_describe_personality` over the custom traits. */
  method AppendCustomParts(parts: seq<string>, traits: seq<(string, string)>) returns (all: seq<string>)
    ensures all == parts + CustomParts(traits)
  {
    all := parts;
    var i := 0;
    while i < |traits|
      invariant 0 <= i <= |traits|
      invariant all == parts + CustomParts(traits[..i])
    {
      assert traits[..i + 1][..i] == traits[..i];
      all := all + [traits[i].0 + ": " + traits[i].1];
      i := i + 1;
    }
    assert traits[..i] == traits;
  }

  // ---------------------------------------------------------------------
  // _build_context_summary

  /** The names of the habits, in order. */
  function HabitNames(habits: seq<Habit>): (names: seq<string>)
    ensures |names| == |habits|
    ensures forall i :: 0 <= i < |habits| ==> names[i] == habits[i].name
  {
    seq(|habits|, i requires 0 <= i < |habits| => habits[i].name)
  }

  /** The parts of the summary: the owner, at most five brands, five styles and three habits. */
  function SummaryParts(profile: Profile, preferences: Preferences): (parts: seq<string>)
    ensures forall i :: 0 <= i < |parts| ==> parts[i] != ""
    ensures parts == [] <==> !Given(profile.name) && preferences.brands == [] && preferences.styles == []
                             && preferences.habits == []
  {
    (if Given(profile.name) then ["Пользователь: " + profile.name.value] else [])
    + (if preferences.brands != [] then ["Бренды: " + Join(Take(preferences.brands, 5), ", ")] else [])
    + (if preferences.styles != [] then ["Стили: " + Join(Take(preferences.styles, 5), ", ")] else [])
    + (if preferences.habits != [] then ["Привычки: " + Join(HabitNames(Take(preferences.habits, 3)), ", ")] else [])
  }

  /** `_build_context_summary`: the present parts joined by " | ". */
  function ContextSummary(profile: Profile, preferences: Preferences): string
  {
    Join(SummaryParts(profile, preferences), " | ")
  }

  /** The summary is empty exactly when there is no name, no brand, no style and no habit. */
  lemma SummaryEmptyIff(profile: Profile, preferences: Preferences)
    ensures ContextSummary(profile, preferences) == "" <==>
              !Given(profile.name) && preferences.brands == [] && preferences.styles == [] && preferences.habits == []
  {
    var parts := SummaryParts(profile, preferences);
    if parts != [] {
      JoinStartsWithFirst(parts, " | ");
    }
  }

  /** The summary reads only the first five brands, the first five styles and the first three habits. */
  lemma SummaryReadsFirstFew(profile: Profile, p: Preferences, q: Preferences)
    requires Take(p.brands, 5) == Take(q.brands, 5) && Take(p.styles, 5) == Take(q.styles, 5)
    requires Take(p.habits, 3) == Take(q.habits, 3)
    ensures ContextSummary(profile, p) == ContextSummary(profile, q)
  {
    assert (p.brands == []) == (q.brands == []) by {
      if p.brands != [] { assert Take(p.brands, 5)[0] == p.brands[0]; }
      if q.brands != [] { assert Take(q.brands, 5)[0] == q.brands[0]; }
    }
    assert (p.styles == []) == (q.styles == []) by {
      if p.styles != [] { assert Take(p.styles, 5)[0] == p.styles[0]; }
      if q.styles != [] { assert Take(q.styles, 5)[0] == q.styles[0]; }
    }
    assert (p.habits == []) == (q.habits == []) by {
      if p.habits != [] { assert Take(p.habits, 3)[0] == p.habits[0]; }
      if q.habits != [] { assert Take(q.habits, 3)[0] == q.habits[0]; }
    }
    assert SummaryParts(profile, p) == SummaryParts(profile, q);
  }

  /** `_build_context_summary`, appending the parts one by one. */
  method BuildContextSummary(profile: Profile, preferences: Preferences) returns (summary: string)
    ensures summary == ContextSummary(profile, preferences)
  {
    var parts: seq<string> := [];
    if Given(profile.name) {
      parts := parts + ["Пользователь: " + profile.name.value];
    }
    if preferences.brands != [] {
      parts := parts + ["Бренды: " + Join(Take(preferences.brands, 5), ", ")];
    }
    if preferences.styles != [] {
      parts := parts + ["Стили: " + Join(Take(preferences.styles, 5), ", ")];
    }
    if preferences.habits != [] {
      var habits := HabitNames(Take(preferences.habits, 3));
      parts := parts + ["Привычки: " + Join(habits, ", ")];
    }
    assert parts == SummaryParts(profile, preferences);
    summary := Join(parts, " | ");
  }
}
