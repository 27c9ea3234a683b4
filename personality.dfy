// The personality analyser of app/analysis/personality.py: the default
// traits, the analysis prompt, the rule-based analysis used without a model,
// the reading of a model's reply, the choice between them in `analyze`, and
// the recommendation per personality type. The graph facts, the
// communication history, the model's reply and `json.loads` are parameters.

module Personality {
  import opened Wrappers
  import opened Json
  import opened Text
  import opened OracleText
  import opened GraphFacts

  /** The three traits the analyser reports. */
  datatype Traits = Traits(personalityType: string, communicationStyle: string, decisionMaking: string)

  /** The traits as the dict the analyser returns. */
  function TraitsDict(t: Traits): (d: Dict)
    ensures Get(d, "personality_type", JNull) == JStr(t.personalityType)
    ensures Get(d, "communication_style", JNull) == JStr(t.communicationStyle)
    ensures Get(d, "decision_making", JNull) == JStr(t.decisionMaking)
  {
    var d := [("personality_type", JStr(t.personalityType)), ("communication_style", JStr(t.communicationStyle)),
              ("decision_making", JStr(t.decisionMaking))];
    LookupFirst(d, "personality_type", 0);
    LookupFirst(d, "communication_style", 1);
    LookupFirst(d, "decision_making", 2);
    d
  }

  /** `_default_traits`. */
  function DefaultTraits(): Traits
  {
    Traits("практик", "сдержанный", "аналитический")
  }

  // ---------------------------------------------------------------------
  // _build_prompt

  function NoData(): string { "Нет данных" }

  /** `str(value)` of a record field read with `.get(key)` or `.get(key, default)`. */
  function FieldText(record: Dict, key: string, default: Json): string
  {
    PyStr(Get(record, key, default))
  }

  /** `f"- {c.get('role')} в {c.get('company')}"` for each job. */
  function CareerLines(career: seq<Dict>): (lines: seq<string>)
    ensures |lines| == |career|
    ensures forall i :: 0 <= i < |career| ==>
              lines[i] == "- " + FieldText(career[i], "role", JNull) + " в " + FieldText(career[i], "company", JNull)
  {
    seq(|career|, i requires 0 <= i < |career| => "- " + FieldText(career[i], "role", JNull) + " в " + FieldText(career[i], "company", JNull))
  }

  /** The values the analysis template is filled with. */
  datatype PromptSlots = PromptSlots(
    name: string, bio: string, careerSummary: string, skillsSummary: string, interestsSummary: string,
    communicationHistory: string)

  /**
   * The slot values of `_build_prompt`; "Нет данных" stands for an empty
   * career, skill list, interest list or history, and joining a skill or
   * interest that is not a string raises TypeError.
   */
  function PromptSlotsOf(facts: Facts, history: string): (r: Result<PromptSlots>)
    ensures r.Ok? <==> Texts(facts.skills, "skill").Ok? && Texts(facts.interests, "interest").Ok?
    ensures r.Err? ==> r.error == TypeError
    ensures r.Ok? ==> r.value.name == FieldText(facts.person, "name", JStr("Неизвестно"))
                      && r.value.bio == FieldText(facts.person, "bio", JStr("Не указано"))
    ensures r.Ok? ==> (r.value.careerSummary == NoData() <==> facts.career == [] || Join(CareerLines(facts.career), "\n") == NoData())
    ensures r.Ok? && facts.skills == [] ==> r.value.skillsSummary == NoData()
    ensures r.Ok? && facts.skills != [] ==> r.value.skillsSummary == Join(Texts(facts.skills, "skill").value, ", ")
    ensures r.Ok? && facts.interests == [] ==> r.value.interestsSummary == NoData()
    ensures r.Ok? && facts.interests != [] ==> r.value.interestsSummary == Join(Texts(facts.interests, "interest").value, ", ")
    ensures r.Ok? ==> (r.value.communicationHistory == NoData() <==> history == "" || history == NoData())
  {
    var skills := Texts(facts.skills, "skill");
    var interests := Texts(facts.interests, "interest");
    if skills.Err? || interests.Err? then Err(TypeError)
    else
      Ok(PromptSlots(
        FieldText(facts.person, "name", JStr("Неизвестно")),
        FieldText(facts.person, "bio", JStr("Не указано")),
        if facts.career != [] then Join(CareerLines(facts.career), "\n") else NoData(),
        if facts.skills != [] then Join(skills.value, ", ") else NoData(),
        if facts.interests != [] then Join(interests.value, ", ") else NoData(),
        if history != "" then history else NoData()))
  }

  /** `PERSONALITY_PROMPT.format(...)`. */
  function Render(s: PromptSlots): string
  {
    "\nТы психолог-аналитик. На основе представленных данных о человеке определи его психологический профиль.\n\n"
    + "ДАННЫЕ О ЧЕЛОВЕКЕ:\n\n"
    + "Имя: " + s.name + "\n"
    + "Описание: " + s.bio + "\n\n"
    + "КАРЬЕРНЫЙ ПУТЬ:\n" + s.careerSummary + "\n\n"
    + "НАВЫКИ:\n" + s.skillsSummary + "\n\n"
    + "ИНТЕРЕСЫ:\n" + s.interestsSummary + "\n\n"
    + "ИСТОРИЯ ОБЩЕНИЯ (если есть):\n" + s.communicationHistory + "\n\n"
    + "---\n\n"
    + "Проанализируй и верни JSON с тремя полями:\n\n"
    + "1. personality_type - один из типов:\n"
    + "   - \"консерватор\" - предпочитает стабильность, проверенные решения\n"
    + "   - \"новатор\" - любит новое, эксперименты\n"
    + "   - \"аналитик\" - все взвешивает, любит данные\n"
    + "   - \"практик\" - ориентирован на результат\n"
    + "   - \"коммуникатор\" - важны отношения и люди\n\n"
    + "2. communication_style - стиль общения:\n"
    + "   - \"формальный\" - строгий, деловой\n"
    + "   - \"дружеский\" - неформальный, открытый  \n"
    + "   - \"сдержанный\" - краткий, по делу\n"
    + "   - \"эмоциональный\" - экспрессивный\n\n"
    + "3. decision_making - как принимает решения:\n"
    + "   - \"аналитический\" - собирает данные, анализирует\n"
    + "   - \"интуитивный\" - доверяет чутью\n"
    + "   - \"консенсусный\" - советуется с другими\n"
    + "   - \"быстрый\" - принимает решения оперативно\n\n"
    + "Верни ТОЛЬКО JSON без markdown:\n"
    + "{\"personality_type\": \"...\", \"communication_style\": \"...\", \"decision_making\": \"...\"}\n"
  }

  /** `_build_prompt`. */
  function BuildPrompt(facts: Facts, history: string): Result<string>
  {
    match PromptSlotsOf(facts, history)
    case Ok(slots) => Ok(Render(slots))
    case Err(e) => Err(e)
  }

  // ---------------------------------------------------------------------
  // _analyze_heuristic

  /** The type read from the number of jobs: at most two conservative, more than five innovative, else practical. */
  function CareerType(jobs: nat): (t: string)
    ensures t == "консерватор" <==> jobs <= 2
    ensures t == "новатор" <==> jobs > 5
    ensures t == "практик" <==> 2 < jobs <= 5
  {
    if jobs <= 2 then "консерватор" else if jobs > 5 then "новатор" else "практик"
  }

  function TechSkills(): seq<string> { ["Python", "Excel", "BIM", "AutoCAD", "программирование"] }

  function SocialInterests(): seq<string> { ["футбол", "рыбалка", "путешествия", "спорт"] }

  /** `any(w.lower() in s.lower() for w in words)`. */
  predicate Mentions(words: seq<string>, s: string)
  {
    exists i :: 0 <= i < |words| && Contains(Lower(s), Lower(words[i]))
  }

  /** Every record's value under `key` (default "") is a string. */
  predicate AllText(records: seq<Dict>, key: string)
  {
    forall i :: 0 <= i < |records| ==> Get(records[i], key, JStr("")).JStr?
  }

  /** Some record's value under `key` is a string that mentions one of the words. */
  predicate SomeMention(records: seq<Dict>, key: string, words: seq<string>)
  {
    exists i :: 0 <= i < |records| && Get(records[i], key, JStr("")).JStr? && Mentions(words, Get(records[i], key, JStr("")).s)
  }

  /**
   * `any(any(w.lower() in r.get(key, "").lower() for w in words) for r in records)`:
   * records are tried in order, and `.lower()` raises AttributeError on the
   * first value reached that is not a string.
   */
  function AnyMentions(records: seq<Dict>, key: string, words: seq<string>): (r: Result<bool>)
    requires words != []
    ensures AllText(records, key) ==> r == Ok(SomeMention(records, key, words))
    ensures r.Err? ==> r.error == AttributeError && !AllText(records, key)
  {
    if records == [] then Ok(false)
    else
      var value := Get(records[0], key, JStr(""));
      var rest := AnyMentions(records[1..], key, words);
      assert forall i :: 1 <= i < |records| ==> records[i] == records[1..][i - 1];
      assert AllText(records, key) ==> AllText(records[1..], key);
      assert SomeMention(records, key, words) <==>
               (value.JStr? && Mentions(words, value.s)) || SomeMention(records[1..], key, words) by {
        if SomeMention(records[1..], key, words) {
          var i :| 0 <= i < |records[1..]| && Get(records[1..][i], key, JStr("")).JStr?
                   && Mentions(words, Get(records[1..][i], key, JStr("")).s);
          assert records[i + 1] == records[1..][i];
        }
      }
      if !value.JStr? then Err(AttributeError)
      else if Mentions(words, value.s) then Ok(true)
      else rest
  }

  /** `_analyze_heuristic`. */
  function AnalyzeHeuristic(facts: Facts): (r: Result<Traits>)
    ensures AllText(facts.skills, "skill") && AllText(facts.interests, "interest") ==> r.Ok?
    ensures r.Err? ==> r.error == AttributeError
  {
    var tech := AnyMentions(facts.skills, "skill", TechSkills());
    var social := AnyMentions(facts.interests, "interest", SocialInterests());
    if tech.Err? then Err(tech.error)
    else if social.Err? then Err(social.error)
    else
      Ok(Traits(if tech.value then "аналитик" else CareerType(|facts.career|),
                if social.value then "дружеский" else "формальный",
                if tech.value then "аналитический" else "интуитивный"))
  }

  /**
   * A technical skill makes the person an analyst who decides analytically,
   * otherwise the type comes from the career length and the decision is
   * intuitive; a social interest makes the style friendly, else formal.
   */
  lemma HeuristicRules(facts: Facts)
    requires AllText(facts.skills, "skill") && AllText(facts.interests, "interest")
    ensures AnalyzeHeuristic(facts).Ok?
    ensures var t := AnalyzeHeuristic(facts).value;
      var tech := SomeMention(facts.skills, "skill", TechSkills());
      (tech ==> t.personalityType == "аналитик" && t.decisionMaking == "аналитический")
      && (!tech ==> t.personalityType == CareerType(|facts.career|) && t.decisionMaking == "интуитивный")
      && (t.communicationStyle == "дружеский" <==> SomeMention(facts.interests, "interest", SocialInterests()))
  {
  }

  // ---------------------------------------------------------------------
  // _analyze_with_gemini and analyze

  /**
   * `_analyze_with_gemini`: the stripped reply, without its code fence, is
   * decoded; an exception (the call, a fence without a newline, or text
   * that does not decode) gives the default traits.
   */
  function ReadReply(reply: ModelReply, loads: string -> Option<Json>): (r: Json)
    requires !reply.NoClient?
    ensures reply.Raised? ==> r == JObj(TraitsDict(DefaultTraits()))
    ensures reply.Replied? && FenceBody(Strip(reply.text)).None? ==> r == JObj(TraitsDict(DefaultTraits()))
    ensures reply.Replied? && FenceBody(Strip(reply.text)).Some? ==>
              r == loads(FenceBody(Strip(reply.text)).value).GetOr(JObj(TraitsDict(DefaultTraits())))
  {
    match reply
    case Raised(_) => JObj(TraitsDict(DefaultTraits()))
    case Replied(text) =>
      match FenceBody(Strip(text))
      case None => JObj(TraitsDict(DefaultTraits()))
      case Some(body) => loads(body).GetOr(JObj(TraitsDict(DefaultTraits())))
  }

  /**
   * `analyze`: no facts give the default traits; otherwise the prompt is
   * built first (its TypeError propagates), then the model's reply is read,
   * or the heuristic runs when there is no model. `facts` is None for the
   * empty dict `get_all_facts` returns for an unknown person.
   */
  function Analyze(facts: Option<Facts>, history: string, reply: ModelReply, loads: string -> Option<Json>): (r: Result<Json>)
    ensures facts.None? ==> r == Ok(JObj(TraitsDict(DefaultTraits())))
    ensures facts.Some? && PromptSlotsOf(facts.value, history).Err? ==> r == Err(TypeError)
    ensures facts.Some? && PromptSlotsOf(facts.value, history).Ok? && reply.NoClient? ==>
              AnalyzeHeuristic(facts.value).Ok? && r == Ok(JObj(TraitsDict(AnalyzeHeuristic(facts.value).value)))
    ensures facts.Some? && PromptSlotsOf(facts.value, history).Ok? && !reply.NoClient? ==> r == Ok(ReadReply(reply, loads))
  {
    if facts.None? then Ok(JObj(TraitsDict(DefaultTraits())))
    else
      var slots := PromptSlotsOf(facts.value, history);
      if slots.Err? then Err(TypeError)
      else if reply.NoClient? then
        PromptFieldsAreText(facts.value, history);
        match AnalyzeHeuristic(facts.value)
        case Ok(t) => Ok(JObj(TraitsDict(t)))
        case Err(e) => Err(e)
      else Ok(ReadReply(reply, loads))
  }

  /** A prompt that could be built leaves the heuristic nothing to raise on. */
  lemma PromptFieldsAreText(facts: Facts, history: string)
    requires PromptSlotsOf(facts, history).Ok?
    ensures AllText(facts.skills, "skill") && AllText(facts.interests, "interest")
    ensures AnalyzeHeuristic(facts).Ok?
  {
  }

  // ---------------------------------------------------------------------
  // get_recommendation

  function StandardApproach(): string { "Стандартный подход." }

  /** The advice for each known personality type. */
  function Advice(ptype: string): Option<string>
  {
    if ptype == "консерватор" then
      Some("Предпочитает надёжных поставщиков с историей. Не предлагайте стартапы или экспериментальные решения.")
    else if ptype == "новатор" then
      Some("Открыт к новым продуктам и технологиям. Можно предлагать инновационные решения.")
    else if ptype == "аналитик" then
      Some("Важны цифры, данные, сравнения. Подготовьте детальные расчёты и обоснования.")
    else if ptype == "практик" then
      Some("Ориентирован на результат. Покажите конкретную выгоду и сроки.")
    else if ptype == "коммуникатор" then
      Some("Важны личные отношения. Уделите время неформальному общению.")
    else None
  }

  /** A value Python can look up in a dict (lists and dicts are unhashable). */
  predicate Hashable(j: Json)
  {
    !j.JArr? && !j.JObj?
  }

  /**
   * `get_recommendation`: the advice for the reported type, "Стандартный
   * подход." for any other value; looking up a list or a dict raises TypeError.
   */
  function Recommendation(traits: Dict): (r: Result<string>)
    ensures var ptype := Get(traits, "personality_type", JStr(""));
      (r.Err? <==> !Hashable(ptype))
      && (ptype.JStr? && Advice(ptype.s).Some? ==> r == Ok(Advice(ptype.s).value))
      && (Hashable(ptype) && !(ptype.JStr? && Advice(ptype.s).Some?) ==> r == Ok(StandardApproach()))
  {
    var ptype := Get(traits, "personality_type", JStr(""));
    if !Hashable(ptype) then Err(TypeError)
    else if ptype.JStr? && Advice(ptype.s).Some? then Ok(Advice(ptype.s).value)
    else Ok(StandardApproach())
  }
}
