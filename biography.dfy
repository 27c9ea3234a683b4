// The biography generator of app/analysis/biography.py: the facts count and
// the answer for an unknown person in `generate`, the prompt built from the
// graph facts, and the template biography written when no model is
// configured. The graph facts, the model's reply, the fresh id and the id the
// database returns for the saved biography are parameters.

module Biography {
  import opened Wrappers
  import opened Json
  import opened Text
  import opened OracleText
  import opened GraphFacts

  // ---------------------------------------------------------------------
  // _build_prompt

  function NoData(): string { "Нет данных" }

  function Ongoing(): string { " - настоящее время" }

  /** A job without a truthy `until` is the person's current one. */
  predicate IsCurrent(job: Dict)
  {
    !Truthy(Get(job, "until", JNull))
  }

  /** The period of a job: "since-until", or "since - настоящее время" when it is current; '?' for a missing since. */
  function Period(job: Dict): (r: string)
    ensures var since := PyStr(Get(job, "since", JStr("?")));
      (IsCurrent(job) ==> r == since + Ongoing())
      && (!IsCurrent(job) ==> r == since + "-" + PyStr(Get(job, "until", JNull)))
    ensures !HasKey(job, "since") ==> StartsWith(r, "?")
  {
    var since := PyStr(Get(job, "since", JStr("?")));
    if IsCurrent(job) then since + Ongoing() else since + "-" + PyStr(Get(job, "until", JNull))
  }

  /** `- {role} в {company} ({period})`, "Сотрудник" and '?' standing for a missing role or company. */
  function CareerLine(job: Dict): (line: string)
    ensures StartsWith(line, "- ")
  {
    var rest := PyStr(Get(job, "role", JStr("Сотрудник"))) + " в " + PyStr(Get(job, "company", JStr("?")))
                + " (" + Period(job) + ")";
    StartsWithConcat("- ", rest);
    "- " + rest
  }

  /** `- {skill} ({level}{, N лет опыта})`, the years only when they are truthy. */
  function SkillLine(skill: Dict): (line: string)
    ensures StartsWith(line, "- ")
  {
    var years := Get(skill, "years", JNull);
    "- " + PyStr(Get(skill, "skill", JStr("?"))) + " (" + PyStr(Get(skill, "level", JStr("")))
    + (if Truthy(years) then ", " + PyStr(years) + " лет опыта" else "") + ")"
  }

  /** `- {interest}`. */
  function InterestLine(interest: Dict): (line: string)
    ensures StartsWith(line, "- ")
  {
    "- " + PyStr(Get(interest, "interest", JStr("?")))
  }

  /** `- {name}{ (context)}{ с since}`, the context and the date only when they are truthy. */
  function ConnectionLine(connection: Dict): (line: string)
    ensures StartsWith(line, "- ")
  {
    var context := Get(connection, "context", JStr(""));
    var since := Get(connection, "since", JNull);
    "- " + PyStr(Get(connection, "name", JStr("?")))
    + (if Truthy(context) then " (" + PyStr(context) + ")" else "")
    + (if Truthy(since) then " с " + PyStr(since) else "")
  }

  /** The lines joined by newlines, "Нет данных" when there are none. */
  function Section(lines: seq<string>): (r: string)
    requires forall i :: 0 <= i < |lines| ==> StartsWith(lines[i], "- ")
    ensures r == NoData() <==> lines == []
  {
    if lines == [] then NoData()
    else
      JoinStartsWithFirst(lines, "\n");
      var joined := Join(lines, "\n");
      assert StartsWith(lines[0], "- ");
      assert lines[0][..2] == "- ";
      assert joined[..|lines[0]|] == lines[0];
      assert joined[0] == lines[0][0] == '-';
      Join(lines, "\n")
  }

  function CareerLines(career: seq<Dict>): (lines: seq<string>)
    ensures |lines| == |career| && forall i :: 0 <= i < |career| ==> lines[i] == CareerLine(career[i])
  {
    seq(|career|, i requires 0 <= i < |career| => CareerLine(career[i]))
  }

  function SkillLines(skills: seq<Dict>): (lines: seq<string>)
    ensures |lines| == |skills| && forall i :: 0 <= i < |skills| ==> lines[i] == SkillLine(skills[i])
  {
    seq(|skills|, i requires 0 <= i < |skills| => SkillLine(skills[i]))
  }

  function InterestLines(interests: seq<Dict>): (lines: seq<string>)
    ensures |lines| == |interests| && forall i :: 0 <= i < |interests| ==> lines[i] == InterestLine(interests[i])
  {
    seq(|interests|, i requires 0 <= i < |interests| => InterestLine(interests[i]))
  }

  function ConnectionLines(connections: seq<Dict>): (lines: seq<string>)
    ensures |lines| == |connections|
    ensures forall i :: 0 <= i < |connections| ==> lines[i] == ConnectionLine(connections[i])
  {
    seq(|connections|, i requires 0 <= i < |connections| => ConnectionLine(connections[i]))
  }

  /** The values the biography template is filled with. */
  datatype PromptSlots = PromptSlots(
    name: string, location: string, bio: string, careerText: string, skillsText: string,
    interestsText: string, connectionsText: string, style: string, language: string)

  /**
   * The slot values of `_build_prompt`: one line per record in each section,
   * "Нет данных" for exactly the empty lists, and "Неизвестно" or "Не указано"
   * for a missing name, location or bio.
   */
  function PromptSlotsOf(facts: Facts, style: string, language: string): (s: PromptSlots)
    ensures s.name == PyStr(Get(facts.person, "name", JStr("Неизвестно")))
    ensures s.location == PyStr(Get(facts.person, "location", JStr("Не указано")))
    ensures s.bio == PyStr(Get(facts.person, "bio", JStr("Не указано")))
    ensures s.careerText == NoData() <==> facts.career == []
    ensures s.skillsText == NoData() <==> facts.skills == []
    ensures s.interestsText == NoData() <==> facts.interests == []
    ensures s.connectionsText == NoData() <==> facts.connections == []
    ensures facts.career != [] ==> s.careerText == Join(CareerLines(facts.career), "\n")
    ensures facts.skills != [] ==> s.skillsText == Join(SkillLines(facts.skills), "\n")
    ensures facts.interests != [] ==> s.interestsText == Join(InterestLines(facts.interests), "\n")
    ensures facts.connections != [] ==> s.connectionsText == Join(ConnectionLines(facts.connections), "\n")
    ensures s.style == style && s.language == language
  {
    PromptSlots(
      PyStr(Get(facts.person, "name", JStr("Неизвестно"))),
      PyStr(Get(facts.person, "location", JStr("Не указано"))),
      PyStr(Get(facts.person, "bio", JStr("Не указано"))),
      Section(CareerLines(facts.career)), Section(SkillLines(facts.skills)),
      Section(InterestLines(facts.interests)), Section(ConnectionLines(facts.connections)),
      style, language)
  }

  /** `BIOGRAPHY_PROMPT_TEMPLATE.format(...)`. */
  function Render(s: PromptSlots): string
  {
    "\n"
    + "Ты профессиональный биограф. На основе представленных фактов о человеке создай связный, увлекательный текст биографии.\n"
    + "\n"
    + "ФАКТЫ О ЧЕЛОВЕКЕ:\n"
    + "\n"
    + "Имя: " + s.name + "\n"
    + "Локация: " + s.location + "\n"
    + "Описание: " + s.bio + "\n"
    + "\n"
    + "КАРЬЕРА:\n" + s.careerText + "\n"
    + "\n"
    + "НАВЫКИ:\n" + s.skillsText + "\n"
    + "\n"
    + "ИНТЕРЕСЫ:\n" + s.interestsText + "\n"
    + "\n"
    + "СВЯЗИ (близкие контакты):\n" + s.connectionsText + "\n"
    + "\n"
    + "---\n"
    + "\n"
    + "ТРЕБОВАНИЯ К БИОГРАФИИ:\n"
    + "- Стиль: " + s.style + "\n"
    + "- Язык: " + s.language + "\n"
    + "- Создай связный текст, объединяющий факты в историю жизни\n"
    + "- Покажи причинно-следственные связи в карьере\n"
    + "- Упомяни ключевые навыки и как они развивались\n"
    + "- Отрази интересы и их связь с карьерой/личностью\n"
    + "- Упомяни важные связи (коллеги, партнёры)\n"
    + "- НЕ выдумывай факты, которых нет в исходных данных\n"
    + "- Длина: 3-5 абзацев\n"
    + "\n"
    + "СТИЛИ:\n"
    + "- professional: Формальный, для резюме/LinkedIn\n"
    + "- casual: Неформальный, дружеский тон\n"
    + "- detailed: Подробный, с деталями и нюансами\n"
    + "- executive: Краткий, для презентаций руководству\n"
    + "\n"
    + "Напиши биографию:\n"
  }

  /** `_build_prompt`. */
  function BuildPrompt(facts: Facts, style: string, language: string): string
  {
    Render(PromptSlotsOf(facts, style, language))
  }

  // ---------------------------------------------------------------------
  // _generate_fallback

  /** The sentences of the template biography, before they are written out. */
  datatype Sentence =
    | Origin(name: string, location: Option<string>)
    | CurrentWork(role: string, company: string)
    | Moves(count: nat)
    | SkillList(skillNames: seq<string>)
    | InterestList(interestNames: seq<string>)

  function SentenceText(s: Sentence): string
  {
    match s
    case Origin(name, location) => name + (if location.Some? then " из " + location.value else "") + "."
    case CurrentWork(role, company) => "В настоящее время работает " + role + " в компании " + company + "."
    case Moves(n) => "За карьеру сменил " + IntToString(n) + " мест работы."
    case SkillList(names) => ListText(SkillLead(), names)
    case InterestList(names) => ListText(InterestLead(), names)
  }

  function SkillLead(): string { "Владеет навыками: " }

  function InterestLead(): string { "Интересуется: " }

  /** `f"{lead}{', '.join(names)}."`. */
  function ListText(lead: string, names: seq<string>): string
  {
    lead + Join(names, ", ") + "."
  }

  function SentenceTexts(ss: seq<Sentence>): (ts: seq<string>)
    ensures |ts| == |ss| && forall i :: 0 <= i < |ss| ==> ts[i] == SentenceText(ss[i])
  {
    seq(|ss|, i requires 0 <= i < |ss| => SentenceText(ss[i]))
  }

  /** `next(c for c in career if not c.get("until"))`: the index of the first current job. */
  function CurrentJob(career: seq<Dict>): (r: Option<nat>)
    ensures r.Some? ==> r.value < |career| && IsCurrent(career[r.value])
                        && forall j :: 0 <= j < r.value ==> !IsCurrent(career[j])
    ensures r.None? ==> forall j :: 0 <= j < |career| ==> !IsCurrent(career[j])
  {
    if career == [] then None
    else if IsCurrent(career[0]) then Some(0)
    else
      var rest := CurrentJob(career[1..]);
      assert forall j :: 1 <= j < |career| ==> career[j] == career[1..][j - 1];
      match rest
      case None => None
      case Some(k) => Some(k + 1)
  }

  /** The opening sentence: the name ("Человек" when missing), and " из " with the location when it is truthy. */
  function OriginOf(person: Dict): Sentence
  {
    var location := Get(person, "location", JNull);
    Origin(PyStr(Get(person, "name", JStr("Человек"))), if Truthy(location) then Some(PyStr(location)) else None)
  }

  /** The sentence about the current job, with "" for a missing role or company. */
  function WorkOf(job: Dict): Sentence
  {
    CurrentWork(PyStr(Get(job, "role", JStr(""))), PyStr(Get(job, "company", JStr(""))))
  }

  /** The first current job, when there is one and its record is not empty (an empty dict is falsy). */
  predicate HasCurrentWork(career: seq<Dict>)
  {
    CurrentJob(career).Some? && career[CurrentJob(career).value] != []
  }

  /**
   * The career sentences: the first current job when there is one, and the
   * number of jobs when there is more than one.
   */
  function CareerSentences(career: seq<Dict>): (ss: seq<Sentence>)
    ensures |ss| <= 2
  {
    if career == [] then [] else WorkPart(career) + MovesPart(career)
  }

  /** The job count is told exactly for more than one job, the current job whenever there is one, and nothing else. */
  lemma CareerSentencesContents(career: seq<Dict>)
    ensures var ss := CareerSentences(career);
      && (Moves(|career|) in ss <==> |career| > 1)
      && (HasCurrentWork(career) ==> WorkOf(career[CurrentJob(career).value]) in ss)
      && (forall x :: x in ss ==> x.Moves? || (HasCurrentWork(career) && x == WorkOf(career[CurrentJob(career).value])))
  {
    if career != [] {
      var w, m := WorkPart(career), MovesPart(career);
      assert CareerSentences(career) == w + m;
      if |career| > 1 {
        assert m == [Moves(|career|)];
      } else {
        assert m == [];
      }
      if HasCurrentWork(career) {
        assert w == [WorkOf(career[CurrentJob(career).value])];
      } else {
        assert w == [];
      }
      assert forall x :: x in w + m <==> x in w || x in m;
    }
  }

  /** The sentence on the first current job, when there is one. */
  function WorkPart(career: seq<Dict>): seq<Sentence>
  {
    if HasCurrentWork(career) then [WorkOf(career[CurrentJob(career).value])] else []
  }

  /** The sentence on the number of jobs, when there is more than one. */
  function MovesPart(career: seq<Dict>): seq<Sentence>
  {
    if |career| > 1 then [Moves(|career|)] else []
  }

  /**
   * The names listed for the first `n` records: all of them strings, or
   * TypeError; the records after the first `n` are not read.
   */
  function Listed(records: seq<Dict>, key: string, n: nat): (r: Result<seq<string>>)
    ensures r.Ok? <==> forall i :: 0 <= i < Min(n, |records|) ==> Get(records[i], key, JStr("")).JStr?
    ensures r.Ok? ==> |r.value| == Min(n, |records|)
                      && forall i :: 0 <= i < |r.value| ==> r.value[i] == Get(records[i], key, JStr("")).s
  {
    var first := Take(records, n);
    assert forall i :: 0 <= i < |first| ==> first[i] == records[i];
    Texts(first, key)
  }

  /** The skills sentence, naming the first five skills, exactly when there are skills. */
  function SkillPart(skills: seq<Dict>): (ss: seq<Sentence>)
    ensures ss != [] <==> skills != [] && Listed(skills, "skill", 5).Ok?
    ensures ss != [] ==> ss == [SkillList(Listed(skills, "skill", 5).value)]
                         && |ss[0].skillNames| == Min(5, |skills|)
  {
    if skills == [] then []
    else match Listed(skills, "skill", 5)
      case Ok(names) => [SkillList(names)]
      case Err(_) => []
  }

  /** The interests sentence, naming the first three interests, exactly when there are interests. */
  function InterestPart(interests: seq<Dict>): (ss: seq<Sentence>)
    ensures ss != [] <==> interests != [] && Listed(interests, "interest", 3).Ok?
    ensures ss != [] ==> ss == [InterestList(Listed(interests, "interest", 3).value)]
                         && |ss[0].interestNames| == Min(3, |interests|)
  {
    if interests == [] then []
    else match Listed(interests, "interest", 3)
      case Ok(names) => [InterestList(names)]
      case Err(_) => []
  }

  /**
   * The sentences of `_generate_fallback`: the opening, then the career, the
   * skills and the interests; joining a listed name that is not a string
   * raises TypeError.
   */
  function Sentences(facts: Facts): (r: Result<seq<Sentence>>)
    ensures r.Err? <==> Listed(facts.skills, "skill", 5).Err? || Listed(facts.interests, "interest", 3).Err?
    ensures r.Err? ==> r.error == TypeError
    ensures r.Ok? ==> 1 <= |r.value| <= 5 && r.value[0] == OriginOf(facts.person)
                      && r.value[1..] == CareerSentences(facts.career) + SkillPart(facts.skills)
                                         + InterestPart(facts.interests)
  {
    if Listed(facts.skills, "skill", 5).Err? || Listed(facts.interests, "interest", 3).Err? then Err(TypeError)
    else
      var rest := CareerSentences(facts.career) + SkillPart(facts.skills) + InterestPart(facts.interests);
      assert ([OriginOf(facts.person)] + rest)[1..] == rest;
      Ok([OriginOf(facts.person)] + rest)
  }

  /** The template biography: the sentences joined by spaces. */
  function Fallback(facts: Facts): Result<string>
  {
    match Sentences(facts)
    case Ok(ss) => Ok(Join(SentenceTexts(ss), " "))
    case Err(e) => Err(e)
  }

  /** The template biography opens with the name and location sentence. */
  lemma FallbackOpening(facts: Facts)
    requires Fallback(facts).Ok?
    ensures StartsWith(Fallback(facts).value, SentenceText(OriginOf(facts.person)))
  {
    JoinStartsWithFirst(SentenceTexts(Sentences(facts).value), " ");
  }

  /** Only the first five skills and the first three interests are read. */
  lemma FallbackReadsFirstFew(f: Facts, g: Facts)
    requires f.person == g.person && f.career == g.career
    requires Take(f.skills, 5) == Take(g.skills, 5) && Take(f.interests, 3) == Take(g.interests, 3)
    ensures Fallback(f) == Fallback(g)
  {
    assert f.skills == [] <==> g.skills == [] by {
      assert |Take(f.skills, 5)| == Min(5, |f.skills|);
      assert |Take(g.skills, 5)| == Min(5, |g.skills|);
    }
    assert f.interests == [] <==> g.interests == [] by {
      assert |Take(f.interests, 3)| == Min(3, |f.interests|);
      assert |Take(g.interests, 3)| == Min(3, |g.interests|);
    }
  }

  lemma SentenceTextsSingle(x: Sentence)
    ensures SentenceTexts([x]) == [SentenceText(x)]
  {
  }

  lemma SentenceTextsAppend(a: seq<Sentence>, b: seq<Sentence>)
    ensures SentenceTexts(a + b) == SentenceTexts(a) + SentenceTexts(b)
  {
  }

  /** The career parts of `_generate_fallback`. */
  method AppendCareer(parts: seq<string>, career: seq<Dict>) returns (all: seq<string>)
    ensures all == parts + SentenceTexts(CareerSentences(career))
  {
    all := parts;
    if career != [] {
      var withWork := AppendWork(parts, career);
      all := AppendMoves(withWork, career);
      SentenceTextsAppend(WorkPart(career), MovesPart(career));
    }
  }

  /** The sentence on the current job, appended when there is one. */
  method AppendWork(parts: seq<string>, career: seq<Dict>) returns (all: seq<string>)
    ensures all == parts + SentenceTexts(WorkPart(career))
  {
    all := parts;
    var current := CurrentJob(career);
    if current.Some? && career[current.value] != [] {
      var job := career[current.value];
      var text := "В настоящее время работает " + PyStr(Get(job, "role", JStr(""))) + " в компании "
                  + PyStr(Get(job, "company", JStr(""))) + ".";
      assert text == SentenceText(WorkOf(job));
      SentenceTextsSingle(WorkOf(job));
      all := all + [text];
    }
  }

  /** The sentence on the number of jobs, appended when there is more than one. */
  method AppendMoves(parts: seq<string>, career: seq<Dict>) returns (all: seq<string>)
    ensures all == parts + SentenceTexts(MovesPart(career))
  {
    all := parts;
    if |career| > 1 {
      var text := "За карьеру сменил " + IntToString(|career|) + " мест работы.";
      assert text == SentenceText(Moves(|career|));
      SentenceTextsSingle(Moves(|career|));
      all := all + [text];
    }
  }

  /** The first part of `_generate_fallback`, completed in three steps. */
  method Opening(person: Dict) returns (opening: seq<string>)
    ensures opening == SentenceTexts([OriginOf(person)])
  {
    ghost var origin := OriginOf(person);
    var name := PyStr(Get(person, "name", JStr("Человек")));
    var location := Get(person, "location", JNull);
    assert origin.name == name;
    opening := [name];
    if Truthy(location) {
      var place := PyStr(location);
      assert origin.location == Some(place);
      opening := [opening[0] + " из " + place];
    } else {
      assert origin.location == None;
    }
    opening := [opening[0] + "."];
    assert opening[0] == SentenceText(origin);
    SentenceTextsSingle(origin);
  }

  /** When both lists can be joined, the sentences are the opening followed by the three parts. */
  lemma SentencesOk(facts: Facts)
    requires Listed(facts.skills, "skill", 5).Ok? && Listed(facts.interests, "interest", 3).Ok?
    ensures Sentences(facts)
            == Ok([OriginOf(facts.person)] + CareerSentences(facts.career) + SkillPart(facts.skills)
                  + InterestPart(facts.interests))
  {
    var made := Sentences(facts).value;
    var ss := [OriginOf(facts.person)] + CareerSentences(facts.career) + SkillPart(facts.skills)
              + InterestPart(facts.interests);
    assert ss[1..] == CareerSentences(facts.career) + SkillPart(facts.skills) + InterestPart(facts.interests);
    assert made == [made[0]] + made[1..];
    assert ss == [ss[0]] + ss[1..];
  }

  /**
   * The skills or interests part of `_generate_fallback`: nothing for no
   * records, else the sentence listing the first `n` names.
   */
  method AppendNames(parts: seq<string>, records: seq<Dict>, key: string, n: nat, lead: string)
    returns (r: Result<seq<string>>)
    ensures records == [] ==> r == Ok(parts)
    ensures records != [] && Listed(records, key, n).Err? ==> r == Err(TypeError)
    ensures records != [] && Listed(records, key, n).Ok? ==> r == Ok(parts + [ListText(lead, Listed(records, key, n).value)])
  {
    if records == [] {
      return Ok(parts);
    }
    var names := Listed(records, key, n);
    if names.Err? {
      return Err(TypeError);
    }
    return Ok(parts + [ListText(lead, names.value)]);
  }

  /** `_generate_fallback`: the parts are built one after another, the first one in three steps. */
  method GenerateFallback(facts: Facts) returns (r: Result<string>)
    ensures r == Fallback(facts)
  {
    var opening := Opening(facts.person);
    var parts := AppendCareer(opening, facts.career);
    ghost var ss := [OriginOf(facts.person)] + CareerSentences(facts.career);
    SentenceTextsAppend([OriginOf(facts.person)], CareerSentences(facts.career));

    var withSkills := AppendNames(parts, facts.skills, "skill", 5, SkillLead());
    if withSkills.Err? {
      return Err(TypeError);
    }
    assert parts == SentenceTexts(ss);
    SentenceTextsAppend(ss, SkillPart(facts.skills));
    if facts.skills != [] {
      assert SentenceTexts(SkillPart(facts.skills)) == [ListText(SkillLead(), Listed(facts.skills, "skill", 5).value)];
    }
    ss := ss + SkillPart(facts.skills);
    assert withSkills.value == SentenceTexts(ss);
    var withInterests := AppendNames(withSkills.value, facts.interests, "interest", 3, InterestLead());
    if withInterests.Err? {
      return Err(TypeError);
    }
    SentenceTextsAppend(ss, InterestPart(facts.interests));
    if facts.interests != [] {
      assert SentenceTexts(InterestPart(facts.interests))
             == [ListText(InterestLead(), Listed(facts.interests, "interest", 3).value)];
    }
    ss := ss + InterestPart(facts.interests);
    assert withInterests.value == SentenceTexts(ss);
    SentencesOk(facts);
    r := Ok(Join(withInterests.value, " "));
  }

  // ---------------------------------------------------------------------
  // generate

  function NoFacts(): string { "Недостаточно данных для генерации биографии." }

  /** The dict `generate` returns. */
  datatype Generated = Generated(id: string, content: string, modelUsed: string, factsCount: nat)

  /**
   * `generate`: an unknown person (no facts) gets a fixed answer under a
   * fresh id with model "none" and no facts; otherwise the content is the
   * model's reply, the error text when the call raised, or the template
   * biography when no model is configured ("template"), saved under
   * `savedId` with the number of career, skill, interest and connection
   * records.
   */
  function Generate(facts: Option<Facts>, reply: ModelReply, modelName: string, freshId: string, savedId: string)
    : (r: Result<Generated>)
    ensures facts.None? ==> r == Ok(Generated(freshId, NoFacts(), "none", 0))
    ensures facts.Some? && r.Ok? ==> r.value.id == savedId
                                     && r.value.factsCount == |facts.value.career| + |facts.value.skills|
                                                              + |facts.value.interests| + |facts.value.connections|
    ensures facts.Some? && reply.NoClient? ==> (r.Ok? <==> Fallback(facts.value).Ok?)
    ensures facts.Some? && reply.NoClient? && r.Ok? ==>
              r.value.modelUsed == "template" && r.value.content == Fallback(facts.value).value
    ensures facts.Some? && reply.Replied? ==> r.Ok? && r.value.content == reply.text && r.value.modelUsed == modelName
    ensures facts.Some? && reply.Raised? ==>
              r.Ok? && r.value.content == "Ошибка генерации: " + reply.message && r.value.modelUsed == "error"
    ensures r.Err? ==> r.error == TypeError
  {
    match facts
    case None => Ok(Generated(freshId, NoFacts(), "none", 0))
    case Some(f) =>
      var count := FactCount(f);
      match reply
      case NoClient =>
        (match Fallback(f)
         case Ok(content) => Ok(Generated(savedId, content, "template", count))
         case Err(e) => Err(e))
      case Replied(text) => Ok(Generated(savedId, text, modelName, count))
      case Raised(message) => Ok(Generated(savedId, "Ошибка генерации: " + message, "error", count))
  }

  /** A person the graph knows reports no facts exactly when every list is empty. */
  lemma FactsCountZero(f: Facts, reply: ModelReply, modelName: string, freshId: string, savedId: string)
    requires Generate(Some(f), reply, modelName, freshId, savedId).Ok?
    ensures Generate(Some(f), reply, modelName, freshId, savedId).value.factsCount == 0
            <==> f.career == [] && f.skills == [] && f.interests == [] && f.connections == []
  {
  }
}
