// The resume parser of app/ingestion/resume_parser.py: the parsed record,
// the keyword-based skill detection used without a model, the reading of a
// model's reply, and the create-or-update decision and the graph writes of
// `import_to_graph`. The regular-expression matches, the model's reply,
// `json.loads`, the lookup of a person by e-mail and the id of a newly
// created person are parameters; the writes are returned.

module ResumeParser {
  import opened Wrappers
  import opened Json
  import opened Text
  import opened OracleText

  /** `ResumeData`; each field holds whatever was assigned to it, JNull standing for None. */
  datatype ResumeData = ResumeData(
    name: Json, email: Json, phone: Json, location: Json, bio: Json,
    career: Json, education: Json, skills: Json, languages: Json, certifications: Json)

  /** `ResumeData()`: no person details and empty lists. */
  function EmptyResume(): (d: ResumeData)
    ensures d.name == d.email == d.phone == d.location == d.bio == JNull
    ensures d.career == d.education == d.skills == d.languages == d.certifications == JArr([])
  {
    ResumeData(JNull, JNull, JNull, JNull, JNull, JArr([]), JArr([]), JArr([]), JArr([]), JArr([]))
  }

  // ---------------------------------------------------------------------
  // _parse_heuristic

  function SkillKeywords(): seq<string>
  {
    ["python", "java", "javascript", "sql", "excel", "word",
     "управление", "продажи", "переговоры", "bim", "autocad"]
  }

  /** The skill recorded for a keyword found in the text. */
  function DetectedSkill(keyword: string): (skill: Json)
    ensures skill.JObj? && Get(skill.fields, "name", JNull) == JStr(Capitalize(keyword))
    ensures Get(skill.fields, "level", JNull) == JStr("intermediate")
    ensures Get(skill.fields, "category", JNull) == JStr("detected")
  {
    var fields := [("name", JStr(Capitalize(keyword))), ("level", JStr("intermediate")),
                   ("category", JStr("detected"))];
    LookupFirst(fields, "name", 0);
    LookupFirst(fields, "level", 1);
    LookupFirst(fields, "category", 2);
    JObj(fields)
  }

  /** The skills for the keywords the lower-cased text contains, in the keywords' order. */
  function Detected(lower: string, keywords: seq<string>): (skills: seq<Json>)
    ensures |skills| <= |keywords|
  {
    if keywords == [] then []
    else
      var last := keywords[|keywords| - 1];
      Detected(lower, keywords[..|keywords| - 1]) + (if Contains(lower, last) then [DetectedSkill(last)] else [])
  }

  /** A skill is recorded exactly for the keywords the text contains. */
  lemma {:induction false} DetectedIff(lower: string, keywords: seq<string>)
    ensures forall k :: k in keywords && Contains(lower, k) ==> DetectedSkill(k) in Detected(lower, keywords)
    ensures forall s :: s in Detected(lower, keywords) ==>
              exists k :: k in keywords && Contains(lower, k) && s == DetectedSkill(k)
  {
    if keywords != [] {
      var init := keywords[..|keywords| - 1];
      DetectedIff(lower, init);
      assert keywords == init + [keywords[|keywords| - 1]];
      assert forall k :: k in keywords ==> k == keywords[|keywords| - 1] || k in init;
    }
  }

  /** The keywords are matched as substrings: "javascript" also yields Java. */
  lemma JavascriptYieldsJava()
    ensures DetectedSkill("java") in Detected("javascript", SkillKeywords())
  {
    var s := "javascript";
    assert s[0..4] == "java";
    OccursContains(s, "java", 0);
    assert SkillKeywords()[1] == "java";
    DetectedIff(s, SkillKeywords());
  }

  /** The record `_parse_heuristic` returns, given the address and phone matches in the text. */
  function Heuristic(content: string, emails: seq<string>, phones: seq<string>): (d: ResumeData)
    ensures d.email == (if emails != [] then JStr(emails[0]) else JNull)
    ensures d.phone == (if phones != [] then JStr(phones[0]) else JNull)
    ensures d.name == d.location == d.bio == JNull
    ensures d.skills == JArr(Detected(Lower(content), SkillKeywords()))
    ensures d.career == d.education == d.languages == d.certifications == JArr([])
  {
    EmptyResume().(email := if emails != [] then JStr(emails[0]) else JNull,
                   phone := if phones != [] then JStr(phones[0]) else JNull,
                   skills := JArr(Detected(Lower(content), SkillKeywords())))
  }

  /** The keyword loop of `_parse_heuristic`. */
  method DetectSkills(lower: string, keywords: seq<string>) returns (found: seq<Json>)
    ensures found == Detected(lower, keywords)
  {
    found := [];
    for i := 0 to |keywords|
      invariant found == Detected(lower, keywords[..i])
    {
      assert keywords[..i + 1][..i] == keywords[..i];
      if Contains(lower, keywords[i]) {
        found := found + [DetectedSkill(keywords[i])];
      }
    }
    assert keywords[..|keywords|] == keywords;
  }

  /** `_parse_heuristic`: the record starts empty; each keyword found appends its skill. */
  method ParseHeuristic(content: string, emails: seq<string>, phones: seq<string>) returns (d: ResumeData)
    ensures d == Heuristic(content, emails, phones)
  {
    d := EmptyResume();
    if emails != [] {
      d := d.(email := JStr(emails[0]));
    }
    if phones != [] {
      d := d.(phone := JStr(phones[0]));
    }
    var found := DetectSkills(Lower(content), SkillKeywords());
    d := d.(skills := JArr(found));
  }

  // ---------------------------------------------------------------------
  // _parse_with_ai and parse

  /**
   * The record read from a decoded reply: the person's details from its
   * `person` object (missing reads as empty) and the lists as given (an
   * empty list when missing). A reply that is not an object, or whose person
   * is not one, raises AttributeError.
   */
  function FromReply(data: Json): (r: Result<ResumeData>)
    ensures r.Ok? <==> data.JObj? && Get(data.fields, "person", JObj([])).JObj?
    ensures r.Err? ==> r.error == AttributeError
    ensures r.Ok? ==> var person := Get(data.fields, "person", JObj([])).fields;
      r.value.name == Get(person, "name", JNull) && r.value.email == Get(person, "email", JNull)
      && r.value.phone == Get(person, "phone", JNull) && r.value.location == Get(person, "location", JNull)
      && r.value.bio == Get(person, "bio", JNull)
      && r.value.career == Get(data.fields, "career", JArr([]))
      && r.value.education == Get(data.fields, "education", JArr([]))
      && r.value.skills == Get(data.fields, "skills", JArr([]))
      && r.value.languages == Get(data.fields, "languages", JArr([]))
      && r.value.certifications == Get(data.fields, "certifications", JArr([]))
  {
    if !data.JObj? then Err(AttributeError)
    else
      var person := Get(data.fields, "person", JObj([]));
      if !person.JObj? then Err(AttributeError)
      else
        Ok(ResumeData(Get(person.fields, "name", JNull), Get(person.fields, "email", JNull),
                      Get(person.fields, "phone", JNull), Get(person.fields, "location", JNull),
                      Get(person.fields, "bio", JNull),
                      Get(data.fields, "career", JArr([])), Get(data.fields, "education", JArr([])),
                      Get(data.fields, "skills", JArr([])), Get(data.fields, "languages", JArr([])),
                      Get(data.fields, "certifications", JArr([]))))
  }

  /**
   * `parse`: the keyword analysis without a model; with one, the stripped
   * reply without its code fence is decoded and read, and any exception on
   * the way falls back to the keyword analysis.
   */
  function Parse(content: string, reply: ModelReply, loads: string -> Option<Json>,
                 emails: seq<string>, phones: seq<string>): (d: ResumeData)
    ensures reply.NoClient? || reply.Raised? ==> d == Heuristic(content, emails, phones)
    ensures d != Heuristic(content, emails, phones) ==>
              reply.Replied? && FenceBody(Strip(reply.text)).Some?
              && loads(FenceBody(Strip(reply.text)).value).Some?
              && FromReply(loads(FenceBody(Strip(reply.text)).value).value) == Ok(d)
    ensures reply.Replied? && FenceBody(Strip(reply.text)).Some? && loads(FenceBody(Strip(reply.text)).value).Some? && FromReply(loads(FenceBody(Strip(reply.text)).value).value).Ok? ==>
              d == FromReply(loads(FenceBody(Strip(reply.text)).value).value).value
    ensures reply.Replied? && !(FenceBody(Strip(reply.text)).Some? && loads(FenceBody(Strip(reply.text)).value).Some? && FromReply(loads(FenceBody(Strip(reply.text)).value).value).Ok?) ==>
              d == Heuristic(content, emails, phones)
  {
    match reply
    case Replied(text) =>
      (match FenceBody(Strip(text))
       case None => Heuristic(content, emails, phones)
       case Some(body) =>
         match loads(body)
         case None => Heuristic(content, emails, phones)
         case Some(data) =>
           match FromReply(data)
           case Ok(d) => d
           case Err(_) => Heuristic(content, emails, phones))
    case _ => Heuristic(content, emails, phones)
  }

  // ---------------------------------------------------------------------
  // import_to_graph

  /** The `WORKS_AT` relation written for one job. */
  datatype CareerWrite = CareerWrite(company: Json, personId: string, role: Json, since: Json, until: Json,
                                     isCurrent: bool)

  /** The `HAS_SKILL` relation written for one skill. */
  datatype SkillWrite = SkillWrite(name: Json, category: Json, personId: string, level: Json)

  /** The `PersonDocument` row saved for the resume. */
  datatype Document = Document(personId: string, docType: string, title: string, rawContent: string,
                               parsedData: Dict)

  /** The person `GraphQueries.create_person` creates for a resume. */
  datatype PersonWrite = PersonWrite(name: Json, email: Json, phone: Json, location: Json, bio: Json)

  /** The dict `import_to_graph` returns, with the writes it made. */
  datatype ImportResult = ImportResult(
    parsed: ResumeData, personId: Option<string>, created: bool, updated: bool, person: Option<PersonWrite>,
    careerWrites: seq<CareerWrite>, skillWrites: seq<SkillWrite>, document: Option<Document>)

  /** The created person carries the resume's name, e-mail, phone, location and bio. */
  function PersonWriteOf(d: ResumeData): (w: PersonWrite)
    ensures w.name == d.name && w.email == d.email && w.phone == d.phone
    ensures w.location == d.location && w.bio == d.bio
  {
    PersonWrite(d.name, d.email, d.phone, d.location, d.bio)
  }

  /** A job is current exactly when its `until` is missing or None. */
  function CareerWriteOf(personId: string, job: Dict): (w: CareerWrite)
    ensures w.isCurrent <==> Get(job, "until", JNull).JNull?
    ensures w.company == Get(job, "company", JStr("Unknown")) && w.role == Get(job, "role", JStr(""))
    ensures w.personId == personId && w.since == Get(job, "since", JNull) && w.until == Get(job, "until", JNull)
  {
    CareerWrite(Get(job, "company", JStr("Unknown")), personId, Get(job, "role", JStr("")),
                Get(job, "since", JNull), Get(job, "until", JNull), Get(job, "until", JNull).JNull?)
  }

  /** A skill's name defaults to "" and its level to "intermediate". */
  function SkillWriteOf(personId: string, skill: Dict): (w: SkillWrite)
    ensures w.name == Get(skill, "name", JStr("")) && w.level == Get(skill, "level", JStr("intermediate"))
    ensures w.category == Get(skill, "category", JNull) && w.personId == personId
  {
    SkillWrite(Get(skill, "name", JStr("")), Get(skill, "category", JNull), personId,
               Get(skill, "level", JStr("intermediate")))
  }

  /** Every item is a dict (`job.get` raises AttributeError on any other value). */
  predicate AllDicts(items: seq<Json>)
  {
    forall i :: 0 <= i < |items| ==> items[i].JObj?
  }

  function CareerWrites(personId: string, jobs: seq<Json>): (ws: seq<CareerWrite>)
    requires AllDicts(jobs)
    ensures |ws| == |jobs| && forall i :: 0 <= i < |jobs| ==> ws[i] == CareerWriteOf(personId, jobs[i].fields)
  {
    seq(|jobs|, i requires 0 <= i < |jobs| => CareerWriteOf(personId, jobs[i].fields))
  }

  function SkillWrites(personId: string, skills: seq<Json>): (ws: seq<SkillWrite>)
    requires AllDicts(skills)
    ensures |ws| == |skills| && forall i :: 0 <= i < |skills| ==> ws[i] == SkillWriteOf(personId, skills[i].fields)
  {
    seq(|skills|, i requires 0 <= i < |skills| => SkillWriteOf(personId, skills[i].fields))
  }

  /** The document saved for the resume, titled "Resume - " and the name. */
  function DocumentOf(personId: string, d: ResumeData, content: string): (doc: Document)
    ensures doc.personId == personId && doc.docType == "resume" && doc.rawContent == content
    ensures doc.title == "Resume - " + PyStr(d.name)
    ensures |doc.parsedData| == 4
    ensures doc.parsedData[0] == ("career", d.career) && doc.parsedData[1] == ("education", d.education)
    ensures doc.parsedData[2] == ("skills", d.skills) && doc.parsedData[3] == ("languages", d.languages)
  {
    var parsed := [("career", d.career), ("education", d.education), ("skills", d.skills),
                   ("languages", d.languages)];
    Document(personId, "resume", "Resume - " + PyStr(d.name), content, parsed)
  }

  /** The person found by the resume's e-mail address, when it has one. */
  function Existing(d: ResumeData, lookup: Json -> Option<string>): Option<string>
  {
    if Truthy(d.email) then lookup(d.email) else None
  }

  /** The career and the skills can be walked: both iterable, every item a dict. */
  predicate Walkable(d: ResumeData)
  {
    Iterate(d.career).Ok? && AllDicts(Iterate(d.career).value)
    && Iterate(d.skills).Ok? && AllDicts(Iterate(d.skills).value)
  }

  /**
   * `import_to_graph` once the resume is parsed: without a name nothing is
   * written; otherwise the person found by e-mail is updated, or a new one
   * (with id `newId`) created, and every job and skill is written for that
   * person, followed by the document. Walking a career or a skill list that
   * is not a list of dicts raises.
   */
  function Import(d: ResumeData, content: string, lookup: Json -> Option<string>, newId: string)
    : (r: Result<ImportResult>)
    ensures !Truthy(d.name) ==> r == Ok(ImportResult(d, None, false, false, None, [], [], None))
    ensures r.Ok? ==> r.value.parsed == d && !(r.value.created && r.value.updated)
    ensures Truthy(d.name) ==> (r.Ok? <==> Walkable(d))
    ensures Truthy(d.name) && r.Ok? ==>
              (r.value.updated <==> Existing(d, lookup).Some?) && (r.value.created <==> !r.value.updated)
              && r.value.personId == (if r.value.updated then Existing(d, lookup) else Some(newId))
              && (r.value.created <==> r.value.person == Some(PersonWriteOf(d)))
              && (r.value.updated <==> r.value.person.None?)
              && r.value.careerWrites == CareerWrites(r.value.personId.value, Iterate(d.career).value)
              && r.value.skillWrites == SkillWrites(r.value.personId.value, Iterate(d.skills).value)
              && r.value.document == Some(DocumentOf(r.value.personId.value, d, content))
    ensures r.Err? ==> Truthy(d.name) && r.error in {TypeError, AttributeError}
  {
    if !Truthy(d.name) then Ok(ImportResult(d, None, false, false, None, [], [], None))
    else
      var existing := Existing(d, lookup);
      var personId := if existing.Some? then existing.value else newId;
      match Iterate(d.career)
      case Err(e) => Err(e)
      case Ok(jobs) =>
        if !AllDicts(jobs) then Err(AttributeError)
        else
          match Iterate(d.skills)
          case Err(e) => Err(e)
          case Ok(skills) =>
            if !AllDicts(skills) then Err(AttributeError)
            else
              Ok(ImportResult(d, Some(personId), existing.None?, existing.Some?,
                              if existing.None? then Some(PersonWriteOf(d)) else None,
                              CareerWrites(personId, jobs), SkillWrites(personId, skills),
                              Some(DocumentOf(personId, d, content))))
  }

  /** A keyword analysis never finds a name, so importing it writes nothing. */
  lemma HeuristicImportsNothing(content: string, emails: seq<string>, phones: seq<string>,
                                lookup: Json -> Option<string>, newId: string)
    ensures var d := Heuristic(content, emails, phones);
      Import(d, content, lookup, newId) == Ok(ImportResult(d, None, false, false, None, [], [], None))
  {
  }

  /** The job loop of `import_to_graph`. */
  method WriteCareer(personId: string, jobs: seq<Json>) returns (r: Result<seq<CareerWrite>>)
    ensures AllDicts(jobs) ==> r == Ok(CareerWrites(personId, jobs))
    ensures !AllDicts(jobs) ==> r == Err(AttributeError)
  {
    var writes: seq<CareerWrite> := [];
    for i := 0 to |jobs|
      invariant |writes| == i
      invariant forall j :: 0 <= j < i ==> jobs[j].JObj? && writes[j] == CareerWriteOf(personId, jobs[j].fields)
    {
      if !jobs[i].JObj? {
        return Err(AttributeError);
      }
      writes := writes + [CareerWriteOf(personId, jobs[i].fields)];
    }
    assert writes == CareerWrites(personId, jobs);
    return Ok(writes);
  }

  /** The skill loop of `import_to_graph`. */
  method WriteSkills(personId: string, skills: seq<Json>) returns (r: Result<seq<SkillWrite>>)
    ensures AllDicts(skills) ==> r == Ok(SkillWrites(personId, skills))
    ensures !AllDicts(skills) ==> r == Err(AttributeError)
  {
    var writes: seq<SkillWrite> := [];
    for i := 0 to |skills|
      invariant |writes| == i
      invariant forall j :: 0 <= j < i ==> skills[j].JObj? && writes[j] == SkillWriteOf(personId, skills[j].fields)
    {
      if !skills[i].JObj? {
        return Err(AttributeError);
      }
      writes := writes + [SkillWriteOf(personId, skills[i].fields)];
    }
    assert writes == SkillWrites(personId, skills);
    return Ok(writes);
  }

  /** `import_to_graph`: the result flags are set as the person is found or created, then the writes follow. */
  method ImportToGraph(d: ResumeData, content: string, lookup: Json -> Option<string>, newId: string)
    returns (r: Result<ImportResult>)
    ensures r == Import(d, content, lookup, newId)
  {
    var result := ImportResult(d, None, false, false, None, [], [], None);
    if !Truthy(d.name) {
      return Ok(result);
    }
    var existing: Option<string> := None;
    if Truthy(d.email) {
      existing := lookup(d.email);
    }
    if existing.Some? {
      result := result.(personId := existing, updated := true);
    } else {
      result := result.(personId := Some(newId), created := true, person := Some(PersonWriteOf(d)));
    }
    var personId := result.personId.value;
    var jobs := Iterate(d.career);
    if jobs.Err? {
      return Err(jobs.error);
    }
    var careerWrites := WriteCareer(personId, jobs.value);
    if careerWrites.Err? {
      return Err(careerWrites.error);
    }
    var skills := Iterate(d.skills);
    if skills.Err? {
      return Err(skills.error);
    }
    var skillWrites := WriteSkills(personId, skills.value);
    if skillWrites.Err? {
      return Err(skillWrites.error);
    }
    result := result.(careerWrites := careerWrites.value, skillWrites := skillWrites.value,
                      document := Some(DocumentOf(personId, d, content)));
    return Ok(result);
  }
}
