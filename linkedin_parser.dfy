// The LinkedIn profile parser of app/ingestion/linkedin_parser.py: the
// parsed profile, the reading of a structured API response, the reading of a
// model's reply, the pattern-based fallback, and the graph writes of
// `import_to_graph`. The regular-expression matches, the model's reply,
// `json.loads`, `json.dumps` and the id of the created person are
// parameters; the writes are returned.

module LinkedInParser {
  import opened Wrappers
  import opened Json
  import opened Text
  import opened OracleText

  /** `LinkedInProfile`; each field holds whatever was assigned to it, JNull standing for None. */
  datatype LinkedInProfile = LinkedInProfile(
    name: Json, headline: Json, location: Json, bio: Json, linkedinUrl: Json,
    currentCompany: Json, currentRole: Json,
    experience: Json, education: Json, skills: Json,
    connectionsCount: Json, recommendationsCount: Json)

  /** `LinkedInProfile()`: no details, empty lists and no connections or recommendations. */
  function EmptyProfile(): (p: LinkedInProfile)
    ensures p.name == p.headline == p.location == p.bio == p.linkedinUrl == JNull
    ensures p.currentCompany == p.currentRole == JNull
    ensures p.experience == p.education == p.skills == JArr([])
    ensures p.connectionsCount == p.recommendationsCount == JInt(0)
  {
    LinkedInProfile(JNull, JNull, JNull, JNull, JNull, JNull, JNull, JArr([]), JArr([]), JArr([]),
                    JInt(0), JInt(0))
  }

  /** What `parse` is given: a dict from the LinkedIn API or raw profile text. */
  datatype ProfileInput = FromApi(data: Dict) | FromText(text: string)

  // ---------------------------------------------------------------------
  // _parse_api_response: positions

  /** `value.get(key, {}).get(inner)`: the nested read, which raises AttributeError when the outer value is not a dict. */
  function Nested(d: Dict, key: string, inner: string): Result<Json>
  {
    GetAttr(Get(d, key, JObj([])), inner, JNull)
  }

  /** The value of a nested read; None stands in for a read that raises, which the source never gets past. */
  function NestedOr(d: Dict, key: string, inner: string): Json
  {
    match Nested(d, key, inner)
    case Ok(v) => v
    case Err(_) => JNull
  }

  /** The entries of a dict; a value that is not one has none to read. */
  function Fields(j: Json): Dict
  {
    if j.JObj? then j.fields else []
  }

  /** A position can be read: it is a dict, and so are its company, start date and end date. */
  predicate PositionReadable(pos: Json)
  {
    pos.JObj? && Nested(pos.fields, "company", "name").Ok?
    && Nested(pos.fields, "startDate", "year").Ok? && Nested(pos.fields, "endDate", "year").Ok?
  }

  /** `pos.get("company", {}).get("name")`. */
  function CompanyName(pos: Json): Json
  {
    NestedOr(Fields(pos), "company", "name")
  }

  /** `pos.get("title")`. */
  function Title(pos: Json): Json
  {
    Get(Fields(pos), "title", JNull)
  }

  /** The job dict made from a readable position: company name, title, start and end years, summary. */
  function JobOf(pos: Json): Dict
  {
    [("company", CompanyName(pos)), ("role", Title(pos)),
     ("since", NestedOr(Fields(pos), "startDate", "year")),
     ("until", NestedOr(Fields(pos), "endDate", "year")),
     ("description", Get(Fields(pos), "summary", JNull))]
  }

  /** The job's entries read back as the position's company name, title, start and end years and summary. */
  lemma JobOfReads(pos: Json)
    ensures Get(JobOf(pos), "company", JNull) == CompanyName(pos)
    ensures Get(JobOf(pos), "role", JNull) == Title(pos)
    ensures Get(JobOf(pos), "since", JNull) == NestedOr(Fields(pos), "startDate", "year")
    ensures Get(JobOf(pos), "until", JNull) == NestedOr(Fields(pos), "endDate", "year")
    ensures Get(JobOf(pos), "description", JNull) == Get(Fields(pos), "summary", JNull)
  {
    JobReadsFirst(CompanyName(pos), Title(pos), NestedOr(Fields(pos), "startDate", "year"),
                  NestedOr(Fields(pos), "endDate", "year"), Get(Fields(pos), "summary", JNull));
    JobReadsLast(CompanyName(pos), Title(pos), NestedOr(Fields(pos), "startDate", "year"),
                 NestedOr(Fields(pos), "endDate", "year"), Get(Fields(pos), "summary", JNull));
  }

  /** The first three entries of a job dict read back. */
  lemma JobReadsFirst(company: Json, role: Json, since: Json, until: Json, description: Json)
    ensures var job := [("company", company), ("role", role), ("since", since), ("until", until),
                        ("description", description)];
      Get(job, "company", JNull) == company && Get(job, "role", JNull) == role
      && Get(job, "since", JNull) == since
  {
    var job := [("company", company), ("role", role), ("since", since), ("until", until),
                ("description", description)];
    LookupFirst(job, "company", 0);
    LookupFirst(job, "role", 1);
    LookupFirst(job, "since", 2);
  }

  /** The last two entries of a job dict read back. */
  lemma JobReadsLast(company: Json, role: Json, since: Json, until: Json, description: Json)
    ensures var job := [("company", company), ("role", role), ("since", since), ("until", until),
                        ("description", description)];
      Get(job, "until", JNull) == until && Get(job, "description", JNull) == description
  {
    var job := [("company", company), ("role", role), ("since", since), ("until", until),
                ("description", description)];
    LookupFirst(job, "until", 3);
    LookupFirst(job, "description", 4);
  }

  /** Every position can be read, checked from the last one back. */
  predicate PositionsReadable(positions: seq<Json>)
  {
    positions == [] || (PositionsReadable(positions[..|positions| - 1]) && PositionReadable(positions[|positions| - 1]))
  }

  /** A position that cannot be read makes the whole list unreadable. */
  lemma {:induction false} UnreadableAt(positions: seq<Json>, i: nat)
    requires i < |positions| && !PositionReadable(positions[i])
    ensures !PositionsReadable(positions)
  {
    var init := positions[..|positions| - 1];
    if i < |init| {
      assert init[i] == positions[i];
      UnreadableAt(init, i);
    }
  }

  /** `[f(x) for x in xs]`, built from the first item on. */
  function Each<A, B>(f: A -> B, xs: seq<A>): (ys: seq<B>)
    ensures |ys| == |xs|
  {
    if xs == [] then [] else Each(f, xs[..|xs| - 1]) + [f(xs[|xs| - 1])]
  }

  lemma {:induction false} EachAt<A, B>(f: A -> B, xs: seq<A>, i: nat)
    requires i < |xs|
    ensures Each(f, xs)[i] == f(xs[i])
  {
    var init := xs[..|xs| - 1];
    if i < |init| {
      EachAt(f, init, i);
      assert init[i] == xs[i];
    }
  }

  /** The experience entry of one position. */
  function JobEntry(pos: Json): Json
  {
    JObj(JobOf(pos))
  }

  /** The experience built from the positions: one job per position, in order. */
  function Experience(positions: seq<Json>): seq<Json>
  {
    Each(JobEntry, positions)
  }

  /** `pos.get("isCurrent")` is truthy. */
  predicate Flagged(pos: Json)
  {
    pos.JObj? && Truthy(Get(pos.fields, "isCurrent", JNull))
  }

  /** The last position flagged current, if any. */
  function LastCurrent(positions: seq<Json>): (r: Option<nat>)
    ensures r.Some? ==> r.value < |positions| && Flagged(positions[r.value])
                        && forall j :: r.value < j < |positions| ==> !Flagged(positions[j])
    ensures r.None? ==> forall j :: 0 <= j < |positions| ==> !Flagged(positions[j])
  {
    if positions == [] then None
    else if Flagged(positions[|positions| - 1]) then Some(|positions| - 1)
    else LastCurrent(positions[..|positions| - 1])
  }

  /** The current company and role: those of the last position flagged current, else None. */
  function Current(positions: seq<Json>): (Json, Json)
  {
    match LastCurrent(positions)
    case None => (JNull, JNull)
    case Some(k) => (CompanyName(positions[k]), Title(positions[k]))
  }

  /** A later position flagged current replaces the current company and role; an unflagged one keeps them. */
  lemma CurrentStep(positions: seq<Json>, pos: Json)
    ensures Current(positions + [pos]) == if Flagged(pos) then (CompanyName(pos), Title(pos)) else Current(positions)
  {
    var ps := positions + [pos];
    assert ps[..|ps| - 1] == positions;
  }

  /** One pass of the position loop: the job is appended, and a position flagged current sets the company and role from it. */
  method AddPosition(experience: seq<Json>, company: Json, role: Json, pos: Json)
    returns (experience': seq<Json>, company': Json, role': Json)
    ensures experience' == experience + [JobEntry(pos)]
    ensures (company', role') == if Flagged(pos) then (CompanyName(pos), Title(pos)) else (company, role)
  {
    var job := JobOf(pos);
    experience' := experience + [JObj(job)];
    company', role' := company, role;
    if Flagged(pos) {
      JobOfReads(pos);
      company' := Get(job, "company", JNull);
      role' := Get(job, "role", JNull);
    }
  }

  /** The position loop of `_parse_api_response`. */
  method ReadPositions(positions: seq<Json>) returns (r: Result<(seq<Json>, Json, Json)>)
    ensures PositionsReadable(positions) ==>
              r == Ok((Experience(positions), Current(positions).0, Current(positions).1))
    ensures !PositionsReadable(positions) ==> r == Err(AttributeError)
  {
    var experience: seq<Json> := [];
    var company := JNull;
    var role := JNull;
    for i := 0 to |positions|
      invariant PositionsReadable(positions[..i])
      invariant experience == Experience(positions[..i])
      invariant (company, role) == Current(positions[..i])
    {
      var pos := positions[i];
      if !PositionReadable(pos) {
        UnreadableAt(positions, i);
        return Err(AttributeError);
      }
      assert positions[..i + 1][..i] == positions[..i];
      CurrentStep(positions[..i], pos);
      assert positions[..i] + [pos] == positions[..i + 1];
      assert Experience(positions[..i + 1]) == Experience(positions[..i]) + [JobEntry(pos)];
      experience, company, role := AddPosition(experience, company, role, pos);
    }
    assert positions[..|positions|] == positions;
    return Ok((experience, company, role));
  }

  // ---------------------------------------------------------------------
  // _parse_api_response: educations

  /** An education entry can be read: it is a dict, and so is its end date. */
  predicate EducationReadable(edu: Json)
  {
    edu.JObj? && Nested(edu.fields, "endDate", "year").Ok?
  }

  /** The education dict: school name, degree, field of study and end year. */
  function EducationOf(edu: Json): Dict
    requires EducationReadable(edu)
  {
    [("institution", Get(edu.fields, "schoolName", JNull)), ("degree", Get(edu.fields, "degree", JNull)),
     ("field", Get(edu.fields, "fieldOfStudy", JNull)), ("year", Nested(edu.fields, "endDate", "year").value)]
  }

  /** The entry's fields read back as the school name, degree, field of study and end year. */
  lemma EducationOfReads(edu: Json)
    requires EducationReadable(edu)
    ensures Get(EducationOf(edu), "institution", JNull) == Get(edu.fields, "schoolName", JNull)
    ensures Get(EducationOf(edu), "degree", JNull) == Get(edu.fields, "degree", JNull)
    ensures Get(EducationOf(edu), "field", JNull) == Get(edu.fields, "fieldOfStudy", JNull)
    ensures Get(EducationOf(edu), "year", JNull) == Nested(edu.fields, "endDate", "year").value
  {
    EducationReads(Get(edu.fields, "schoolName", JNull), Get(edu.fields, "degree", JNull),
                   Get(edu.fields, "fieldOfStudy", JNull), Nested(edu.fields, "endDate", "year").value);
  }

  /** The entries of an education dict read back. */
  lemma EducationReads(institution: Json, degree: Json, field: Json, year: Json)
    ensures var entry := [("institution", institution), ("degree", degree), ("field", field), ("year", year)];
      Get(entry, "institution", JNull) == institution && Get(entry, "degree", JNull) == degree
      && Get(entry, "field", JNull) == field && Get(entry, "year", JNull) == year
  {
    var entry := [("institution", institution), ("degree", degree), ("field", field), ("year", year)];
    LookupFirst(entry, "institution", 0);
    LookupFirst(entry, "degree", 1);
    LookupFirst(entry, "field", 2);
    LookupFirst(entry, "year", 3);
  }

  predicate EducationsReadable(educations: seq<Json>)
  {
    forall i :: 0 <= i < |educations| ==> EducationReadable(educations[i])
  }

  /** One education entry per API entry, in order. */
  function Education(educations: seq<Json>): (entries: seq<Json>)
    requires EducationsReadable(educations)
    ensures |entries| == |educations|
    ensures forall i :: 0 <= i < |educations| ==> entries[i] == JObj(EducationOf(educations[i]))
  {
    seq(|educations|, i requires 0 <= i < |educations| => JObj(EducationOf(educations[i])))
  }

  /** The education loop of `_parse_api_response`. */
  method ReadEducations(educations: seq<Json>) returns (r: Result<seq<Json>>)
    ensures EducationsReadable(educations) ==> r == Ok(Education(educations))
    ensures !EducationsReadable(educations) ==> r == Err(AttributeError)
  {
    var entries: seq<Json> := [];
    for i := 0 to |educations|
      invariant |entries| == i
      invariant forall j :: 0 <= j < i ==> EducationReadable(educations[j])
                                           && entries[j] == JObj(EducationOf(educations[j]))
    {
      if !EducationReadable(educations[i]) {
        return Err(AttributeError);
      }
      entries := entries + [JObj(EducationOf(educations[i]))];
    }
    assert entries == Education(educations);
    return Ok(entries);
  }

  // ---------------------------------------------------------------------
  // _parse_api_response: skills

  /** `s.get("skill")`, on an entry that is a dict. */
  function SkillOf(s: Json): Json
    requires s.JObj?
  {
    Get(s.fields, "skill", JNull)
  }

  /** `s.get("skill")` is truthy: the entry contributes a skill name. */
  predicate HasSkill(s: Json)
  {
    s.JObj? && Truthy(SkillOf(s))
  }

  /** A skill entry can be read: a dict whose skill, when truthy, is a dict too. */
  predicate SkillReadable(s: Json)
  {
    s.JObj? && (HasSkill(s) ==> SkillOf(s).JObj?)
  }

  /** The name of an entry's skill (a truthy skill is present, so the `{}` default of the source never applies). */
  function SkillName(s: Json): Json
    requires HasSkill(s) && SkillOf(s).JObj?
  {
    Get(SkillOf(s).fields, "name", JNull)
  }

  /**
   * `[s.get("skill", {}).get("name") for s in skills if s.get("skill")]`,
   * which raises AttributeError on the first entry that cannot be read.
   */
  function SkillNames(skills: seq<Json>): (r: Result<seq<Json>>)
    ensures r.Ok? ==> |r.value| <= |skills|
    ensures r.Err? ==> r.error == AttributeError
  {
    if skills == [] then Ok([])
    else
      var s := skills[|skills| - 1];
      match SkillNames(skills[..|skills| - 1])
      case Err(e) => Err(e)
      case Ok(names) =>
        if !SkillReadable(s) then Err(AttributeError)
        else if !HasSkill(s) then Ok(names)
        else Ok(names + [SkillName(s)])
  }

  /**
   * The comprehension succeeds exactly when every entry can be read, and then
   * its names are exactly those of the entries with a skill.
   */
  lemma {:induction false} SkillNamesIff(skills: seq<Json>)
    ensures SkillNames(skills).Ok? <==> forall i :: 0 <= i < |skills| ==> SkillReadable(skills[i])
    ensures SkillNames(skills).Ok? ==>
              forall x :: x in SkillNames(skills).value <==>
                exists i :: 0 <= i < |skills| && SkillReadable(skills[i]) && HasSkill(skills[i])
                            && x == SkillName(skills[i])
  {
    if skills != [] {
      var init := skills[..|skills| - 1];
      SkillNamesIff(init);
      assert forall i :: 0 <= i < |init| ==> init[i] == skills[i];
      assert skills == init + [skills[|skills| - 1]];
    }
  }

  /** An entry with no skill contributes nothing. */
  lemma EntryWithoutSkillIgnored(skills: seq<Json>, s: Json)
    requires s.JObj? && !HasSkill(s)
    ensures SkillNames(skills + [s]) == SkillNames(skills)
  {
    assert (skills + [s])[..|skills|] == skills;
  }

  // ---------------------------------------------------------------------
  // _parse_api_response

  /** `data.get(key, {}).get("values", [])` walked as a list. */
  function Values(data: Dict, key: string): (r: Result<seq<Json>>)
    ensures r.Ok? ==> Get(data, key, JObj([])).JObj?
    ensures r.Err? ==> r.error in {AttributeError, TypeError}
  {
    match GetAttr(Get(data, key, JObj([])), "values", JArr([]))
    case Err(e) => Err(e)
    case Ok(values) => Iterate(values)
  }

  /** The name: first and last name joined by a space, surrounding whitespace stripped. */
  function ApiName(data: Dict): string
  {
    Strip(PyStr(Get(data, "firstName", JStr(""))) + " " + PyStr(Get(data, "lastName", JStr(""))))
  }

  /** Trimmed first and last names are joined by exactly one space. */
  lemma ApiNameOfTrimmed(data: Dict, first: string, last: string)
    requires Get(data, "firstName", JStr("")) == JStr(first) && Get(data, "lastName", JStr("")) == JStr(last)
    requires first != [] && !IsSpace(first[0]) && last != [] && !IsSpace(last[|last| - 1])
    ensures ApiName(data) == first + " " + last
  {
    var s := first + " " + last;
    assert s[0] == first[0] && s[|s| - 1] == last[|last| - 1];
    StripTrimmed(s);
  }

  /** With neither name present the name is empty, so nothing is imported. */
  lemma ApiNameMissing(data: Dict)
    requires !HasKey(data, "firstName") && !HasKey(data, "lastName")
    ensures ApiName(data) == []
  {
    assert PyStr(JStr("")) + " " + PyStr(JStr("")) == " ";
    assert IsSpace(' ');
  }

  /** Every value `_parse_api_response` reads a field from is a dict, and every list it walks is iterable. */
  predicate ApiReadable(data: Dict)
  {
    Nested(data, "location", "name").Ok?
    && Values(data, "positions").Ok? && PositionsReadable(Values(data, "positions").value)
    && Values(data, "educations").Ok? && EducationsReadable(Values(data, "educations").value)
    && Values(data, "skills").Ok? && SkillNames(Values(data, "skills").value).Ok?
  }

  /** The profile read from a readable response. */
  function ApiFields(data: Dict): LinkedInProfile
    requires ApiReadable(data)
  {
    var positions := Values(data, "positions").value;
    var (company, role) := Current(positions);
    LinkedInProfile(JStr(ApiName(data)), Get(data, "headline", JNull), Nested(data, "location", "name").value,
                    Get(data, "summary", JNull), JNull, company, role,
                    JArr(Experience(positions)), JArr(Education(Values(data, "educations").value)),
                    JArr(SkillNames(Values(data, "skills").value).value),
                    Get(data, "numConnections", JInt(0)), JInt(0))
  }

  /**
   * `_parse_api_response`: a value that is not a dict where one is read
   * raises AttributeError, and a list that is not iterable raises
   * TypeError, the first failure in reading order deciding which.
   */
  function ApiProfile(data: Dict): (r: Result<LinkedInProfile>)
    ensures r.Ok? <==> ApiReadable(data)
    ensures r.Ok? ==> r.value == ApiFields(data)
    ensures r.Err? ==> r.error in {AttributeError, TypeError}
  {
    match Nested(data, "location", "name")
    case Err(e) => Err(e)
    case Ok(_) =>
      match Values(data, "positions")
      case Err(e) => Err(e)
      case Ok(positions) =>
        if !PositionsReadable(positions) then Err(AttributeError)
        else
          match Values(data, "educations")
          case Err(e) => Err(e)
          case Ok(educations) =>
            if !EducationsReadable(educations) then Err(AttributeError)
            else
              match Values(data, "skills")
              case Err(e) => Err(e)
              case Ok(skills) =>
                match SkillNames(skills)
                case Err(e) => Err(e)
                case Ok(_) => Ok(ApiFields(data))
  }

  /**
   * A response read without error gives the stripped name; one experience
   * entry per position, in order; the company and role of the last position
   * flagged current, or None when none is; one education entry per entry;
   * the names of the skill entries that have a skill; and the connection
   * count, 0 when missing.
   */
  lemma ApiProfileContents(data: Dict)
    requires ApiProfile(data).Ok?
    ensures var p := ApiProfile(data).value; var positions := Values(data, "positions").value;
      p.name == JStr(ApiName(data)) && p.linkedinUrl == JNull
      && p.connectionsCount == Get(data, "numConnections", JInt(0)) && p.recommendationsCount == JInt(0)
      && p.experience.JArr? && |p.experience.items| == |positions|
      && (forall i :: 0 <= i < |positions| ==> p.experience.items[i] == JObj(JobOf(positions[i])))
      && (LastCurrent(positions).None? ==> p.currentCompany == p.currentRole == JNull)
      && (LastCurrent(positions).Some? ==>
            var pos := positions[LastCurrent(positions).value];
            p.currentCompany == CompanyName(pos) && p.currentRole == Title(pos))
      && p.education == JArr(Education(Values(data, "educations").value))
      && p.skills == JArr(SkillNames(Values(data, "skills").value).value)
  {
    var positions := Values(data, "positions").value;
    forall i | 0 <= i < |positions|
      ensures Experience(positions)[i] == JObj(JobOf(positions[i]))
    {
      EachAt(JobEntry, positions, i);
    }
  }

  /** `_parse_api_response`: the profile starts empty and is filled in field by field. */
  method ParseApiResponse(data: Dict) returns (r: Result<LinkedInProfile>)
    ensures r == ApiProfile(data)
  {
    var profile := EmptyProfile();
    profile := profile.(name := JStr(ApiName(data)), headline := Get(data, "headline", JNull));
    var location := Nested(data, "location", "name");
    if location.Err? {
      return Err(location.error);
    }
    profile := profile.(location := location.value, bio := Get(data, "summary", JNull));
    var positions := Values(data, "positions");
    if positions.Err? {
      return Err(positions.error);
    }
    var read := ReadPositions(positions.value);
    if read.Err? {
      return Err(read.error);
    }
    var (experience, company, role) := read.value;
    profile := profile.(experience := JArr(experience), currentCompany := company, currentRole := role);
    var educations := Values(data, "educations");
    if educations.Err? {
      return Err(educations.error);
    }
    var entries := ReadEducations(educations.value);
    if entries.Err? {
      return Err(entries.error);
    }
    profile := profile.(education := JArr(entries.value));
    var skills := Values(data, "skills");
    if skills.Err? {
      return Err(skills.error);
    }
    var names := SkillNames(skills.value);
    if names.Err? {
      return Err(names.error);
    }
    profile := profile.(skills := JArr(names.value), connectionsCount := Get(data, "numConnections", JInt(0)));
    return Ok(profile);
  }

  // ---------------------------------------------------------------------
  // _parse_heuristic, _parse_with_ai and parse

  /**
   * `_parse_heuristic`, given the first `linkedin.com/in/...` match and the
   * number in the first "N connections" match: nothing else is read.
   */
  function Heuristic(urlMatch: Option<string>, connections: Option<nat>): (p: LinkedInProfile)
    ensures p.linkedinUrl == (if urlMatch.Some? then JStr("https://www." + urlMatch.value) else JNull)
    ensures p.connectionsCount == (if connections.Some? then JInt(connections.value) else JInt(0))
    ensures p.name == p.headline == p.location == p.bio == p.currentCompany == p.currentRole == JNull
    ensures p.experience == p.education == p.skills == JArr([]) && p.recommendationsCount == JInt(0)
  {
    EmptyProfile().(linkedinUrl := if urlMatch.Some? then JStr("https://www." + urlMatch.value) else JNull,
                    connectionsCount := if connections.Some? then JInt(connections.value) else JInt(0))
  }

  /**
   * The profile read from a decoded reply: details from its `person`
   * object, company and role from `current_position` (both empty when
   * missing), the lists as given and the counts 0 when missing. A reply
   * that is not an object, or whose person or position is not one, raises
   * AttributeError.
   */
  function FromReply(data: Json): (r: Result<LinkedInProfile>)
    ensures r.Ok? <==> data.JObj? && Get(data.fields, "person", JObj([])).JObj?
                       && Get(data.fields, "current_position", JObj([])).JObj?
    ensures r.Err? ==> r.error == AttributeError
    ensures r.Ok? ==> var person := Get(data.fields, "person", JObj([])).fields;
      var current := Get(data.fields, "current_position", JObj([])).fields;
      r.value.name == Get(person, "name", JNull) && r.value.headline == Get(person, "headline", JNull)
      && r.value.location == Get(person, "location", JNull) && r.value.bio == Get(person, "bio", JNull)
      && r.value.currentCompany == Get(current, "company", JNull)
      && r.value.currentRole == Get(current, "role", JNull) && r.value.linkedinUrl == JNull
      && r.value.experience == Get(data.fields, "experience", JArr([]))
      && r.value.education == Get(data.fields, "education", JArr([]))
      && r.value.skills == Get(data.fields, "skills", JArr([]))
      && r.value.connectionsCount == Get(data.fields, "connections_count", JInt(0))
      && r.value.recommendationsCount == Get(data.fields, "recommendations_count", JInt(0))
  {
    if !data.JObj? then Err(AttributeError)
    else
      var person := Get(data.fields, "person", JObj([]));
      var current := Get(data.fields, "current_position", JObj([]));
      if !person.JObj? || !current.JObj? then Err(AttributeError)
      else
        Ok(LinkedInProfile(Get(person.fields, "name", JNull), Get(person.fields, "headline", JNull),
                           Get(person.fields, "location", JNull), Get(person.fields, "bio", JNull), JNull,
                           Get(current.fields, "company", JNull), Get(current.fields, "role", JNull),
                           Get(data.fields, "experience", JArr([])), Get(data.fields, "education", JArr([])),
                           Get(data.fields, "skills", JArr([])),
                           Get(data.fields, "connections_count", JInt(0)),
                           Get(data.fields, "recommendations_count", JInt(0))))
  }

  /**
   * `parse`: an API dict is read as such, and its errors propagate; text
   * goes to the pattern fallback without a model, and with one the stripped
   * reply without its code fence is decoded and read, any exception on the
   * way falling back to the patterns.
   */
  function Parse(input: ProfileInput, reply: ModelReply, loads: string -> Option<Json>,
                 urlMatch: Option<string>, connections: Option<nat>): (r: Result<LinkedInProfile>)
    ensures input.FromApi? ==> r == ApiProfile(input.data)
    ensures input.FromText? ==> r.Ok?
    ensures input.FromText? && (reply.NoClient? || reply.Raised?) ==> r == Ok(Heuristic(urlMatch, connections))
    ensures input.FromText? && r != Ok(Heuristic(urlMatch, connections)) ==>
              reply.Replied? && FenceBody(Strip(reply.text)).Some?
              && loads(FenceBody(Strip(reply.text)).value).Some?
              && FromReply(loads(FenceBody(Strip(reply.text)).value).value) == r
    ensures input.FromText? && reply.Replied? && FenceBody(Strip(reply.text)).Some? && loads(FenceBody(Strip(reply.text)).value).Some? && FromReply(loads(FenceBody(Strip(reply.text)).value).value).Ok? ==>
              r == FromReply(loads(FenceBody(Strip(reply.text)).value).value)
    ensures input.FromText? && reply.Replied? && !(FenceBody(Strip(reply.text)).Some? && loads(FenceBody(Strip(reply.text)).value).Some? && FromReply(loads(FenceBody(Strip(reply.text)).value).value).Ok?) ==>
              r == Ok(Heuristic(urlMatch, connections))
  {
    match input
    case FromApi(data) => ApiProfile(data)
    case FromText(_) =>
      match reply
      case Replied(text) =>
        (match FenceBody(Strip(text))
         case None => Ok(Heuristic(urlMatch, connections))
         case Some(body) =>
           match loads(body)
           case None => Ok(Heuristic(urlMatch, connections))
           case Some(data) =>
             match FromReply(data)
             case Ok(p) => Ok(p)
             case Err(_) => Ok(Heuristic(urlMatch, connections)))
      case _ => Ok(Heuristic(urlMatch, connections))
  }

  // ---------------------------------------------------------------------
  // import_to_graph

  /** The person created for the profile; the bio falls back to the headline. */
  datatype PersonWrite = PersonWrite(name: Json, location: Json, bio: Json)

  /** The `WORKS_AT` relation written for one job. */
  datatype CareerWrite = CareerWrite(company: Json, personId: string, role: Json, since: Json, until: Json,
                                     isCurrent: bool)

  /** The `HAS_SKILL` relation written for one skill. */
  datatype SkillWrite = SkillWrite(name: Json, personId: string, level: string, source: string)

  /** The `PersonDocument` row saved for the profile. */
  datatype Document = Document(personId: string, docType: string, title: string, sourceUrl: Json,
                               rawContent: string, parsedData: Dict)

  /** The dict `import_to_graph` returns, with the writes it made. */
  datatype ImportResult = ImportResult(
    parsed: LinkedInProfile, personId: Option<string>, created: bool, updated: bool,
    person: Option<PersonWrite>, careerWrites: seq<CareerWrite>, skillWrites: seq<SkillWrite>,
    document: Option<Document>)

  function PersonWriteOf(p: LinkedInProfile): (w: PersonWrite)
    ensures w.name == p.name && w.location == p.location
    ensures w.bio == (if Truthy(p.bio) then p.bio else p.headline)
  {
    PersonWrite(p.name, p.location, if Truthy(p.bio) then p.bio else p.headline)
  }

  /** A job is written only when it has a company; it is current exactly when its `until` is missing or None. */
  function CareerWriteOf(personId: string, job: Dict): (w: CareerWrite)
    ensures w.isCurrent <==> Get(job, "until", JNull).JNull?
    ensures w.company == Get(job, "company", JNull) && w.role == Get(job, "role", JStr(""))
    ensures w.since == Get(job, "since", JNull) && w.until == Get(job, "until", JNull)
    ensures w.personId == personId
  {
    CareerWrite(Get(job, "company", JNull), personId, Get(job, "role", JStr("")),
                Get(job, "since", JNull), Get(job, "until", JNull), Get(job, "until", JNull).JNull?)
  }

  /** The jobs that have a company, written in order. */
  function CareerWrites(personId: string, jobs: seq<Json>): (ws: seq<CareerWrite>)
    requires AllDicts(jobs)
    ensures |ws| <= |jobs|
  {
    if jobs == [] then []
    else
      var job := jobs[|jobs| - 1];
      CareerWrites(personId, jobs[..|jobs| - 1])
      + (if Truthy(Get(job.fields, "company", JNull)) then [CareerWriteOf(personId, job.fields)] else [])
  }

  /** Every item is a dict (`job.get` raises AttributeError on any other value). */
  predicate AllDicts(items: seq<Json>)
  {
    forall i :: 0 <= i < |items| ==> items[i].JObj?
  }

  /** A relation is written exactly for each job with a company, and every one of them has a company. */
  lemma {:induction false} CareerWritesIff(personId: string, jobs: seq<Json>)
    requires AllDicts(jobs)
    ensures forall i :: 0 <= i < |jobs| && Truthy(Get(jobs[i].fields, "company", JNull)) ==>
              CareerWriteOf(personId, jobs[i].fields) in CareerWrites(personId, jobs)
    ensures forall w :: w in CareerWrites(personId, jobs) ==>
              Truthy(w.company) && w.personId == personId
              && exists i :: 0 <= i < |jobs| && w == CareerWriteOf(personId, jobs[i].fields)
  {
    if jobs != [] {
      var init := jobs[..|jobs| - 1];
      CareerWritesIff(personId, init);
      assert forall i :: 0 <= i < |init| ==> init[i] == jobs[i];
      var ws := CareerWrites(personId, jobs);
      forall w | w in ws
        ensures exists i :: 0 <= i < |jobs| && w == CareerWriteOf(personId, jobs[i].fields)
      {
        if w !in CareerWrites(personId, init) {
          assert w == CareerWriteOf(personId, jobs[|jobs| - 1].fields);
        } else {
          var i :| 0 <= i < |init| && w == CareerWriteOf(personId, init[i].fields);
          assert w == CareerWriteOf(personId, jobs[i].fields);
        }
      }
    }
  }

  /** The skill names that are truthy, written in order with level "intermediate" and source "linkedin". */
  function SkillWrites(personId: string, names: seq<Json>): (ws: seq<SkillWrite>)
    ensures |ws| <= |names|
  {
    if names == [] then []
    else
      var name := names[|names| - 1];
      SkillWrites(personId, names[..|names| - 1])
      + (if Truthy(name) then [SkillWrite(name, personId, "intermediate", "linkedin")] else [])
  }

  /** A relation is written exactly for each truthy skill name. */
  lemma {:induction false} SkillWritesIff(personId: string, names: seq<Json>)
    ensures forall w :: w in SkillWrites(personId, names) <==>
              w.name in names && Truthy(w.name) && w == SkillWrite(w.name, personId, "intermediate", "linkedin")
  {
    if names != [] {
      var init := names[..|names| - 1];
      SkillWritesIff(personId, init);
      assert names == init + [names[|names| - 1]];
    }
  }

  /** The document saved for the profile, titled "LinkedIn - " and the name. */
  function DocumentOf(personId: string, p: LinkedInProfile, rawContent: string): (doc: Document)
    ensures doc.personId == personId && doc.docType == "linkedin" && doc.rawContent == rawContent
    ensures doc.title == "LinkedIn - " + PyStr(p.name) && doc.sourceUrl == p.linkedinUrl
    ensures |doc.parsedData| == 5
    ensures doc.parsedData[0] == ("headline", p.headline) && doc.parsedData[1] == ("experience", p.experience)
    ensures doc.parsedData[2] == ("education", p.education) && doc.parsedData[3] == ("skills", p.skills)
    ensures doc.parsedData[4] == ("connections", p.connectionsCount)
  {
    Document(personId, "linkedin", "LinkedIn - " + PyStr(p.name), p.linkedinUrl, rawContent,
             [("headline", p.headline), ("experience", p.experience), ("education", p.education),
              ("skills", p.skills), ("connections", p.connectionsCount)])
  }

  /** The raw content stored: the dumped dict, or the text as given. */
  function RawContent(input: ProfileInput, dumps: Dict -> string): string
  {
    match input
    case FromApi(data) => dumps(data)
    case FromText(text) => text
  }

  /** The profile after a truthy `linkedin_url` argument has replaced its URL. */
  function WithUrl(p: LinkedInProfile, linkedinUrl: Option<string>): (q: LinkedInProfile)
    ensures q.linkedinUrl == (if linkedinUrl.Some? && linkedinUrl.value != [] then JStr(linkedinUrl.value)
                              else p.linkedinUrl)
    ensures q.(linkedinUrl := p.linkedinUrl) == p
  {
    if linkedinUrl.Some? && linkedinUrl.value != [] then p.(linkedinUrl := JStr(linkedinUrl.value)) else p
  }

  /** The experience and the skills can be walked: both iterable, every job a dict. */
  predicate Walkable(p: LinkedInProfile)
  {
    Iterate(p.experience).Ok? && AllDicts(Iterate(p.experience).value) && Iterate(p.skills).Ok?
  }

  /**
   * `import_to_graph` once the profile is parsed: a truthy `linkedin_url`
   * replaces the parsed one; without a name nothing is written; otherwise a
   * person is always created (id `newId`), every job with a company and
   * every non-empty skill name is written for it, followed by the
   * document. Walking an experience list that is not a list of dicts, or
   * skills that are not iterable, raises.
   */
  function Import(parsed: LinkedInProfile, input: ProfileInput, linkedinUrl: Option<string>, newId: string,
                  dumps: Dict -> string): (r: Result<ImportResult>)
    ensures var p := WithUrl(parsed, linkedinUrl);
      !Truthy(p.name) ==> r == Ok(ImportResult(p, None, false, false, None, [], [], None))
    ensures r.Ok? ==> r.value.parsed == WithUrl(parsed, linkedinUrl) && !r.value.updated
    ensures Truthy(parsed.name) ==> (r.Ok? <==> Walkable(parsed))
    ensures Truthy(parsed.name) && r.Ok? ==> var p := WithUrl(parsed, linkedinUrl);
              r.value.created && r.value.personId == Some(newId) && r.value.person == Some(PersonWriteOf(p))
              && r.value.careerWrites == CareerWrites(newId, Iterate(p.experience).value)
              && r.value.skillWrites == SkillWrites(newId, Iterate(p.skills).value)
              && r.value.document == Some(DocumentOf(newId, p, RawContent(input, dumps)))
    ensures r.Err? ==> Truthy(parsed.name) && r.error in {TypeError, AttributeError}
  {
    var p := WithUrl(parsed, linkedinUrl);
    if !Truthy(p.name) then Ok(ImportResult(p, None, false, false, None, [], [], None))
    else
      match Iterate(p.experience)
      case Err(e) => Err(e)
      case Ok(jobs) =>
        if !AllDicts(jobs) then Err(AttributeError)
        else
          match Iterate(p.skills)
          case Err(e) => Err(e)
          case Ok(names) =>
            Ok(ImportResult(p, Some(newId), true, false, Some(PersonWriteOf(p)),
                            CareerWrites(newId, jobs), SkillWrites(newId, names),
                            Some(DocumentOf(newId, p, RawContent(input, dumps)))))
  }

  /** A pattern-only parse never finds a name, so importing it writes nothing. */
  lemma HeuristicImportsNothing(urlMatch: Option<string>, connections: Option<nat>, input: ProfileInput,
                                linkedinUrl: Option<string>, newId: string, dumps: Dict -> string)
    ensures Import(Heuristic(urlMatch, connections), input, linkedinUrl, newId, dumps).value.personId.None?
  {
  }

  /** The job loop of `import_to_graph`. */
  method WriteCareer(personId: string, jobs: seq<Json>) returns (r: Result<seq<CareerWrite>>)
    ensures AllDicts(jobs) ==> r == Ok(CareerWrites(personId, jobs))
    ensures !AllDicts(jobs) ==> r == Err(AttributeError)
  {
    var writes: seq<CareerWrite> := [];
    for i := 0 to |jobs|
      invariant AllDicts(jobs[..i])
      invariant writes == CareerWrites(personId, jobs[..i])
    {
      assert jobs[..i + 1][..i] == jobs[..i];
      if !jobs[i].JObj? {
        return Err(AttributeError);
      }
      if !Truthy(Get(jobs[i].fields, "company", JNull)) {
        continue;
      }
      writes := writes + [CareerWriteOf(personId, jobs[i].fields)];
    }
    assert jobs[..|jobs|] == jobs;
    return Ok(writes);
  }

  /** The skill loop of `import_to_graph`. */
  method WriteSkills(personId: string, names: seq<Json>) returns (writes: seq<SkillWrite>)
    ensures writes == SkillWrites(personId, names)
  {
    writes := [];
    for i := 0 to |names|
      invariant writes == SkillWrites(personId, names[..i])
    {
      assert names[..i + 1][..i] == names[..i];
      if !Truthy(names[i]) {
        continue;
      }
      writes := writes + [SkillWrite(names[i], personId, "intermediate", "linkedin")];
    }
    assert names[..|names|] == names;
  }

  /** `import_to_graph`: the URL is replaced, the person created, then the writes follow. */
  method ImportToGraph(parsed: LinkedInProfile, input: ProfileInput, linkedinUrl: Option<string>,
                       newId: string, dumps: Dict -> string) returns (r: Result<ImportResult>)
    ensures r == Import(parsed, input, linkedinUrl, newId, dumps)
  {
    var data := parsed;
    if linkedinUrl.Some? && linkedinUrl.value != [] {
      data := data.(linkedinUrl := JStr(linkedinUrl.value));
    }
    var result := ImportResult(data, None, false, false, None, [], [], None);
    if !Truthy(data.name) {
      return Ok(result);
    }
    var person := PersonWrite(data.name, data.location, if Truthy(data.bio) then data.bio else data.headline);
    result := result.(personId := Some(newId), created := true, person := Some(person));
    var jobs := Iterate(data.experience);
    if jobs.Err? {
      return Err(jobs.error);
    }
    var careerWrites := WriteCareer(newId, jobs.value);
    if careerWrites.Err? {
      return Err(careerWrites.error);
    }
    var names := Iterate(data.skills);
    if names.Err? {
      return Err(names.error);
    }
    var skillWrites := WriteSkills(newId, names.value);
    result := result.(careerWrites := careerWrites.value, skillWrites := skillWrites,
                      document := Some(DocumentOf(newId, data, RawContent(input, dumps))));
    return Ok(result);
  }
}
