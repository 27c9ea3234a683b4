// The e-mail parser of app/ingestion/email_parser.py: the analysis record
// and its defaults, the rule-based reading of a signature and a writing
// style, the reading of a model's reply, and the enrichment decision of
// `extract_and_enrich`. The regular-expression matches for e-mail addresses
// and phone numbers, the model's reply, `json.loads` and the lookup of a
// person by e-mail are parameters; the fact records written to the database
// are returned.

module EmailParser {
  import opened Wrappers
  import opened Json
  import opened Text
  import opened OracleText

  /**
   * `EmailAnalysis`. Each field holds whatever was assigned to it (the
   * dataclass does not check types), so a field read from a model's reply
   * can hold any decoded value; JNull stands for None.
   */
  datatype EmailAnalysis = EmailAnalysis(
    senderName: Json, senderPosition: Json, senderCompany: Json, senderPhone: Json, senderEmail: Json,
    formality: Json, tone: Json, verbosity: Json, facts: Json)

  /** `EmailAnalysis(...)`: `__post_init__` replaces facts given as None by an empty list. */
  function NewAnalysis(name: Json, position: Json, company: Json, phone: Json, email: Json,
                       formality: Json, tone: Json, verbosity: Json, facts: Json): (a: EmailAnalysis)
    ensures a.facts == (if facts.JNull? then JArr([]) else facts)
    ensures !a.facts.JNull?
    ensures a.senderName == name && a.senderPosition == position && a.senderCompany == company
    ensures a.senderPhone == phone && a.senderEmail == email
    ensures a.formality == formality && a.tone == tone && a.verbosity == verbosity
  {
    EmailAnalysis(name, position, company, phone, email, formality, tone, verbosity,
                  if facts.JNull? then JArr([]) else facts)
  }

  /** `EmailAnalysis()`: no sender details, a neutral business tone of moderate length, no facts. */
  function DefaultAnalysis(): (a: EmailAnalysis)
    ensures a.senderName == a.senderPosition == a.senderCompany == a.senderPhone == a.senderEmail == JNull
    ensures a.formality == JStr("neutral") && a.tone == JStr("business") && a.verbosity == JStr("moderate")
    ensures a.facts == JArr([])
  {
    NewAnalysis(JNull, JNull, JNull, JNull, JNull, JStr("neutral"), JStr("business"), JStr("moderate"), JNull)
  }

  // ---------------------------------------------------------------------
  // _parse_heuristic

  function RegardsPhrases(): seq<string> { ["с уважением", "best regards", "regards"] }

  /** A line that contains a closing phrase, compared in lower case. */
  predicate IsRegards(line: string)
  {
    AnyIn(RegardsPhrases(), Lower(line))
  }

  /** The index of the first line with a closing phrase. */
  function FirstRegards(lines: seq<string>): (r: Option<nat>)
    ensures r.Some? ==> r.value < |lines| && IsRegards(lines[r.value])
                        && forall j :: 0 <= j < r.value ==> !IsRegards(lines[j])
    ensures r.None? ==> forall j :: 0 <= j < |lines| ==> !IsRegards(lines[j])
  {
    if lines == [] then None
    else if IsRegards(lines[0]) then Some(0)
    else
      var rest := FirstRegards(lines[1..]);
      assert forall j :: 1 <= j < |lines| ==> lines[j] == lines[1..][j - 1];
      match rest
      case None => None
      case Some(k) => Some(k + 1)
  }

  /** The trimmed line, when it can be a name: non-empty, without '@', not starting with '+'. */
  function NameCandidate(line: string): (r: Option<string>)
    ensures r.Some? <==> Strip(line) != [] && '@' !in Strip(line) && !StartsWith(Strip(line), "+")
    ensures r.Some? ==> r.value == Strip(line)
  {
    var name := Strip(line);
    if name != [] && '@' !in name && !StartsWith(name, "+") then Some(name) else None
  }

  /**
   * The sender's name: the line after the first line with a closing phrase,
   * when there is one and it can be a name. Later closing lines are never
   * looked at.
   */
  function SignatureName(lines: seq<string>): (r: Option<string>)
    ensures r.Some? ==> FirstRegards(lines).Some? && FirstRegards(lines).value + 1 < |lines|
                        && r == NameCandidate(lines[FirstRegards(lines).value + 1])
    ensures FirstRegards(lines).Some? && FirstRegards(lines).value + 1 < |lines| ==>
              r == NameCandidate(lines[FirstRegards(lines).value + 1])
  {
    match FirstRegards(lines)
    case None => None
    case Some(i) => if i + 1 < |lines| then NameCandidate(lines[i + 1]) else None
  }

  /** Lines after the one following the first closing line do not change the name read. */
  lemma {:induction false} SignatureStopsAtFirst(lines: seq<string>, more: seq<string>)
    requires FirstRegards(lines).Some? && FirstRegards(lines).value + 1 < |lines|
    ensures SignatureName(lines + more) == SignatureName(lines)
  {
    FirstRegardsPrefix(lines, more);
    assert (lines + more)[FirstRegards(lines).value + 1] == lines[FirstRegards(lines).value + 1];
  }

  lemma {:induction false} FirstRegardsPrefix(lines: seq<string>, more: seq<string>)
    requires FirstRegards(lines).Some?
    ensures FirstRegards(lines + more) == FirstRegards(lines)
  {
    if !IsRegards(lines[0]) {
      assert (lines + more)[1..] == lines[1..] + more;
      FirstRegardsPrefix(lines[1..], more);
    }
  }

  /** `brief` under 50 words, `verbose` over 200, else `moderate`. */
  function Verbosity(words: nat): (v: string)
    ensures v == "brief" <==> words < 50
    ensures v == "verbose" <==> words > 200
    ensures v == "moderate" <==> 50 <= words <= 200
  {
    if words < 50 then "brief" else if words > 200 then "verbose" else "moderate"
  }

  function InformalMarkers(): seq<string> { ["привет", "здорово", "hi", "hey"] }

  function FormalMarkers(): seq<string> { ["уважаемый", "dear", "добрый день"] }

  /**
   * The style read from the lower-cased text: an informal marker wins and
   * gives informal and friendly; otherwise a formal marker gives formal and
   * business; otherwise the defaults neutral and business stay.
   */
  function Style(lower: string): (r: (string, string))
    ensures AnyIn(InformalMarkers(), lower) ==> r == ("informal", "friendly")
    ensures !AnyIn(InformalMarkers(), lower) && AnyIn(FormalMarkers(), lower) ==> r == ("formal", "business")
    ensures !AnyIn(InformalMarkers(), lower) && !AnyIn(FormalMarkers(), lower) ==> r == ("neutral", "business")
    ensures r.0 == "informal" <==> r.1 == "friendly"
  {
    if AnyIn(InformalMarkers(), lower) then ("informal", "friendly")
    else if AnyIn(FormalMarkers(), lower) then ("formal", "business")
    else ("neutral", "business")
  }

  /**
   * Markers are matched as substrings, so "hi" inside "this" makes a letter
   * that opens with "dear" informal.
   */
  lemma DearThisIsInformal()
    ensures Style("dear, this") == ("informal", "friendly")
  {
    var s := "dear, this";
    assert s[7..9] == InformalMarkers()[2];
    OccursContains(s, InformalMarkers()[2], 7);
  }

  /** The analysis `_parse_heuristic` returns, given the address and phone matches in the text. */
  function Heuristic(content: string, emails: seq<string>, phones: seq<string>): (a: EmailAnalysis)
    ensures a.senderEmail == (if emails != [] then JStr(emails[0]) else JNull)
    ensures a.senderPhone == (if phones != [] then JStr(phones[0]) else JNull)
    ensures a.senderName == (match SignatureName(Split(Strip(content), '\n'))
                             case Some(name) => JStr(name)
                             case None => JNull)
    ensures a.senderPosition == a.senderCompany == JNull && a.facts == JArr([])
    ensures a.verbosity == JStr(Verbosity(|SplitWords(content)|))
    ensures a.formality == JStr(Style(Lower(content)).0) && a.tone == JStr(Style(Lower(content)).1)
  {
    var name := SignatureName(Split(Strip(content), '\n'));
    var style := Style(Lower(content));
    DefaultAnalysis().(
      senderEmail := if emails != [] then JStr(emails[0]) else JNull,
      senderPhone := if phones != [] then JStr(phones[0]) else JNull,
      senderName := if name.Some? then JStr(name.value) else JNull,
      verbosity := JStr(Verbosity(|SplitWords(content)|)),
      formality := JStr(style.0), tone := JStr(style.1))
  }

  /** The signature loop of `_parse_heuristic`: it stops at the first closing line. */
  method ScanSignature(lines: seq<string>) returns (name: Option<string>)
    ensures name == SignatureName(lines)
  {
    name := None;
    var i := 0;
    while i < |lines|
      invariant 0 <= i <= |lines|
      invariant forall j :: 0 <= j < i ==> !IsRegards(lines[j])
    {
      if IsRegards(lines[i]) {
        assert FirstRegards(lines) == Some(i);
        if i + 1 < |lines| {
          var potential := Strip(lines[i + 1]);
          if potential != [] && '@' !in potential && !StartsWith(potential, "+") {
            name := Some(potential);
          }
        }
        return;
      }
      i := i + 1;
    }
  }

  /**
   * `_parse_heuristic`: the analysis starts from the defaults and is updated
   * field by field; the scan for the signature stops at the first closing line.
   */
  method ParseHeuristic(content: string, emails: seq<string>, phones: seq<string>) returns (a: EmailAnalysis)
    ensures a == Heuristic(content, emails, phones)
  {
    a := DefaultAnalysis();
    if emails != [] {
      a := a.(senderEmail := JStr(emails[0]));
    }
    if phones != [] {
      a := a.(senderPhone := JStr(phones[0]));
    }
    var name := ScanSignature(Split(Strip(content), '\n'));
    if name.Some? {
      a := a.(senderName := JStr(name.value));
    }
    a := a.(verbosity := JStr(Verbosity(|SplitWords(content)|)));
    var lower := Lower(content);
    if AnyIn(InformalMarkers(), lower) {
      a := a.(formality := JStr("informal"), tone := JStr("friendly"));
    } else if AnyIn(FormalMarkers(), lower) {
      a := a.(formality := JStr("formal"), tone := JStr("business"));
    }
  }

  // ---------------------------------------------------------------------
  // _parse_with_ai and parse

  /** `EMAIL_ANALYSIS_PROMPT.format(email_content=...)`. */
  function Prompt(content: string): string
  {
    "\n"
    + "Проанализируй email и извлеки информацию о отправителе.\n"
    + "\n"
    + "EMAIL:\n"
    + "---\n"
    + content + "\n"
    + "---\n"
    + "\n"
    + "Извлеки и верни JSON:\n"
    + "{\n"
    + "    \"sender\": {\n"
    + "        \"name\": \"Полное имя из подписи\",\n"
    + "        \"position\": \"Должность\",\n"
    + "        \"company\": \"Компания\",\n"
    + "        \"phone\": \"Телефон\",\n"
    + "        \"email\": \"Email\"\n"
    + "    },\n"
    + "    \"style_analysis\": {\n"
    + "        \"formality\": \"formal/informal/neutral\",\n"
    + "        \"tone\": \"friendly/business/cold/warm\",\n"
    + "        \"verbosity\": \"brief/moderate/verbose\"\n"
    + "    },\n"
    + "    \"extracted_facts\": [\n"
    + "        {\"type\": \"тип факта\", \"value\": \"значение\"}\n"
    + "    ]\n"
    + "}\n"
    + "\n"
    + "Типы фактов: skill, interest, preference, relationship, location, achievement\n"
    + "\n"
    + "Верни ТОЛЬКО JSON:\n"
  }

  /**
   * The analysis read from a decoded reply: the sender details and the style
   * from their objects (missing ones read as empty), "neutral", "business" and
   * "moderate" for a missing style, and the extracted facts. A reply that is
   * not an object, or whose sender or style is not one, raises AttributeError.
   */
  function FromReply(data: Json): (r: Result<EmailAnalysis>)
    ensures r.Ok? <==> data.JObj? && Get(data.fields, "sender", JObj([])).JObj?
                       && Get(data.fields, "style_analysis", JObj([])).JObj?
    ensures r.Err? ==> r.error == AttributeError
    ensures r.Ok? ==> var sender := Get(data.fields, "sender", JObj([])).fields;
      var style := Get(data.fields, "style_analysis", JObj([])).fields;
      r.value.senderName == Get(sender, "name", JNull) && r.value.senderPosition == Get(sender, "position", JNull)
      && r.value.senderCompany == Get(sender, "company", JNull) && r.value.senderPhone == Get(sender, "phone", JNull)
      && r.value.senderEmail == Get(sender, "email", JNull)
      && r.value.formality == Get(style, "formality", JStr("neutral"))
      && r.value.tone == Get(style, "tone", JStr("business"))
      && r.value.verbosity == Get(style, "verbosity", JStr("moderate"))
      && r.value.facts == (if Get(data.fields, "extracted_facts", JArr([])).JNull? then JArr([])
                           else Get(data.fields, "extracted_facts", JArr([])))
  {
    if !data.JObj? then Err(AttributeError)
    else
      var sender := Get(data.fields, "sender", JObj([]));
      var style := Get(data.fields, "style_analysis", JObj([]));
      if !sender.JObj? || !style.JObj? then Err(AttributeError)
      else
        Ok(NewAnalysis(Get(sender.fields, "name", JNull), Get(sender.fields, "position", JNull),
                       Get(sender.fields, "company", JNull), Get(sender.fields, "phone", JNull),
                       Get(sender.fields, "email", JNull),
                       Get(style.fields, "formality", JStr("neutral")), Get(style.fields, "tone", JStr("business")),
                       Get(style.fields, "verbosity", JStr("moderate")),
                       Get(data.fields, "extracted_facts", JArr([]))))
  }

  /**
   * `parse`: the rule-based analysis without a model; with one, the stripped
   * reply without its code fence is decoded and read, and any exception on
   * the way (the call, a fence without a newline, text that does not decode,
   * a reply of the wrong shape) falls back to the rule-based analysis.
   */
  function Parse(content: string, reply: ModelReply, loads: string -> Option<Json>,
                 emails: seq<string>, phones: seq<string>): (a: EmailAnalysis)
    ensures reply.NoClient? || reply.Raised? ==> a == Heuristic(content, emails, phones)
    ensures a != Heuristic(content, emails, phones) ==>
              reply.Replied? && FenceBody(Strip(reply.text)).Some?
              && loads(FenceBody(Strip(reply.text)).value).Some?
              && FromReply(loads(FenceBody(Strip(reply.text)).value).value) == Ok(a)
    ensures reply.Replied? && FenceBody(Strip(reply.text)).Some? && loads(FenceBody(Strip(reply.text)).value).Some? && FromReply(loads(FenceBody(Strip(reply.text)).value).value).Ok? ==>
              a == FromReply(loads(FenceBody(Strip(reply.text)).value).value).value
    ensures reply.Replied? && !(FenceBody(Strip(reply.text)).Some? && loads(FenceBody(Strip(reply.text)).value).Some? && FromReply(loads(FenceBody(Strip(reply.text)).value).value).Ok?) ==>
              a == Heuristic(content, emails, phones)
  {
    match reply
    case Replied(text) =>
      (match FenceBody(Strip(text))
       case None => Heuristic(content, emails, phones)
       case Some(body) =>
         match loads(body)
         case None => Heuristic(content, emails, phones)
         case Some(data) =>
           match FromReply(data)
           case Ok(a) => a
           case Err(_) => Heuristic(content, emails, phones))
    case _ => Heuristic(content, emails, phones)
  }

  // ---------------------------------------------------------------------
  // extract_and_enrich

  /** A `PersonFact` row added for one extracted fact. */
  datatype FactRecord = FactRecord(
    personId: string, factType: Json, category: string, value: Json, source: string, formality: Json, tone: Json)

  /** The dict `extract_and_enrich` returns, with the rows it added. */
  datatype Enrichment = Enrichment(analysis: EmailAnalysis, personId: Option<string>, enriched: bool,
                                   records: seq<FactRecord>)

  /** A truthy `person_id`: given and not empty. */
  predicate IdGiven(personId: Option<string>)
  {
    personId.Some? && personId.value != ""
  }

  /** The row for one fact: its type ("other" when missing) and value ("" when missing), from an e-mail. */
  function RecordOf(personId: string, fact: Dict, a: EmailAnalysis): (rec: FactRecord)
    ensures rec.personId == personId && rec.category == "email_extraction" && rec.source == "email"
    ensures rec.factType == Get(fact, "type", JStr("other")) && rec.value == Get(fact, "value", JStr(""))
    ensures rec.formality == a.formality && rec.tone == a.tone
  {
    FactRecord(personId, Get(fact, "type", JStr("other")), "email_extraction", Get(fact, "value", JStr("")),
               "email", a.formality, a.tone)
  }

  /** One row per fact, in order; `fact.get` on a fact that is not a dict raises AttributeError. */
  function Records(personId: string, facts: seq<Json>, a: EmailAnalysis): (r: Result<seq<FactRecord>>)
    ensures r.Ok? <==> forall i :: 0 <= i < |facts| ==> facts[i].JObj?
    ensures r.Ok? ==> |r.value| == |facts|
                      && forall i :: 0 <= i < |facts| ==> r.value[i] == RecordOf(personId, facts[i].fields, a)
    ensures r.Err? ==> r.error == AttributeError
  {
    if forall i :: 0 <= i < |facts| ==> facts[i].JObj? then
      Ok(seq(|facts|, i requires 0 <= i < |facts| && facts[i].JObj? => RecordOf(personId, facts[i].fields, a)))
    else Err(AttributeError)
  }

  /**
   * The person the facts belong to: the given id when it is truthy,
   * otherwise the person found by the sender's address when there is one,
   * otherwise the given value.
   */
  function Owner(a: EmailAnalysis, personId: Option<string>, lookup: Json -> Option<string>): (r: Option<string>)
    ensures IdGiven(personId) ==> r == personId
    ensures !IdGiven(personId) && Truthy(a.senderEmail) && lookup(a.senderEmail).Some? ==> r == lookup(a.senderEmail)
    ensures !IdGiven(personId) && !(Truthy(a.senderEmail) && lookup(a.senderEmail).Some?) ==> r == personId
  {
    if Truthy(a.senderEmail) && !IdGiven(personId) && lookup(a.senderEmail).Some? then lookup(a.senderEmail)
    else personId
  }

  /**
   * `extract_and_enrich` once the e-mail is parsed: facts are written only
   * when there is an owner and the analysis has facts; iterating facts that
   * are not a collection raises TypeError, a fact that is not a dict
   * AttributeError.
   */
  function Enrich(a: EmailAnalysis, personId: Option<string>, lookup: Json -> Option<string>): (r: Result<Enrichment>)
    ensures r.Ok? ==> r.value.analysis == a && r.value.personId == Owner(a, personId, lookup)
    ensures r.Ok? ==> (r.value.enriched <==> IdGiven(Owner(a, personId, lookup)) && Truthy(a.facts))
    ensures r.Ok? && !r.value.enriched ==> r.value.records == []
    ensures r.Ok? && r.value.enriched ==>
              Iterate(a.facts).Ok? && |r.value.records| == |Iterate(a.facts).value|
              && forall i :: 0 <= i < |r.value.records| ==>
                   r.value.records[i].personId == Owner(a, personId, lookup).value
    ensures r.Ok? && r.value.enriched ==> Records(Owner(a, personId, lookup).value, Iterate(a.facts).value, a) == Ok(r.value.records)
    ensures r.Err? ==> IdGiven(Owner(a, personId, lookup)) && Truthy(a.facts)
    ensures !(IdGiven(Owner(a, personId, lookup)) && Truthy(a.facts)) ==> r.Ok?
  {
    var owner := Owner(a, personId, lookup);
    if IdGiven(owner) && Truthy(a.facts) then
      match Iterate(a.facts)
      case Err(e) => Err(e)
      case Ok(facts) =>
        match Records(owner.value, facts, a)
        case Err(e) => Err(e)
        case Ok(records) => Ok(Enrichment(a, owner, true, records))
    else Ok(Enrichment(a, owner, false, []))
  }

  /** `extract_and_enrich`: the rows are added one fact at a time. */
  method ExtractAndEnrich(a: EmailAnalysis, personId: Option<string>, lookup: Json -> Option<string>)
    returns (r: Result<Enrichment>)
    ensures r == Enrich(a, personId, lookup)
  {
    var owner := personId;
    if Truthy(a.senderEmail) && !IdGiven(personId) {
      var person := lookup(a.senderEmail);
      if person.Some? {
        owner := person;
      }
    }
    if !(IdGiven(owner) && Truthy(a.facts)) {
      return Ok(Enrichment(a, owner, false, []));
    }
    var facts := Iterate(a.facts);
    if facts.Err? {
      return Err(facts.error);
    }
    var records: seq<FactRecord> := [];
    var i := 0;
    while i < |facts.value|
      invariant 0 <= i <= |facts.value|
      invariant |records| == i
      invariant forall j :: 0 <= j < i ==> facts.value[j].JObj?
                                           && records[j] == RecordOf(owner.value, facts.value[j].fields, a)
    {
      var fact := facts.value[i];
      if !fact.JObj? {
        return Err(AttributeError);
      }
      records := records + [RecordOf(owner.value, fact.fields, a)];
      i := i + 1;
    }
    assert Records(owner.value, facts.value, a).Ok?;
    assert Records(owner.value, facts.value, a).value == records;
    r := Ok(Enrichment(a, owner, true, records));
  }
}
