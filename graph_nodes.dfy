// The node records of app/graph/nodes.py, read from Neo4j records with
// `from_record` and, for people and companies, written back with `to_dict`.
// The timestamps `from_record` leaves to `datetime.utcnow` are parameters,
// one instant per `default_factory` call, and so is the `isoformat` that
// `to_dict` writes them with (`Clock.IsoFormat` models it).

module GraphNodes {
  import opened Wrappers
  import opened Json
  import Clock

  datatype PersonNode = PersonNode(
    id: Json, name: Json, email: Json, phone: Json, bio: Json, location: Json, avatarUrl: Json,
    personalityType: Json, communicationStyle: Json, decisionMaking: Json,
    createdAt: Clock.Instant, updatedAt: Clock.Instant)

  /** `PersonNode.from_record`; both timestamps are new. */
  function PersonFromRecord(record: Dict, createdAt: Clock.Instant, updatedAt: Clock.Instant): (p: PersonNode)
  {
    PersonNode(Get(record, "id", JStr("")), Get(record, "name", JStr("")), Get(record, "email", JNull),
               Get(record, "phone", JNull), Get(record, "bio", JNull), Get(record, "location", JNull),
               Get(record, "avatar_url", JNull), Get(record, "personality_type", JNull),
               Get(record, "communication_style", JNull), Get(record, "decision_making", JNull),
               createdAt, updatedAt)
  }

  /** With a key missing its field reads as "" (id, name) or None, never as a fresh uuid. */
  lemma PersonMissingKeys(record: Dict, createdAt: Clock.Instant, updatedAt: Clock.Instant)
    ensures var p := PersonFromRecord(record, createdAt, updatedAt);
      && p.createdAt == createdAt && p.updatedAt == updatedAt
      && (!HasKey(record, "id") ==> p.id == JStr(""))
      && (!HasKey(record, "name") ==> p.name == JStr(""))
      && (!HasKey(record, "email") ==> p.email == JNull)
      && (!HasKey(record, "phone") ==> p.phone == JNull)
      && (!HasKey(record, "bio") ==> p.bio == JNull)
      && (!HasKey(record, "location") ==> p.location == JNull)
      && (!HasKey(record, "avatar_url") ==> p.avatarUrl == JNull)
      && (!HasKey(record, "personality_type") ==> p.personalityType == JNull)
      && (!HasKey(record, "communication_style") ==> p.communicationStyle == JNull)
      && (!HasKey(record, "decision_making") ==> p.decisionMaking == JNull)
      && (HasKey(record, "id") ==> ("id", p.id) in record)
  {
  }

  function PersonKeys(): seq<string>
  {
    ["id", "name", "email", "phone", "bio", "location", "avatar_url", "personality_type",
     "communication_style", "decision_making", "created_at", "updated_at"]
  }

  /** `PersonNode.to_dict`: the fields under their keys, the timestamps formatted by `iso` (`isoformat`). */
  function PersonToDict(p: PersonNode, iso: Clock.Instant -> string): Dict
  {
    Zip(PersonKeys(),
        [p.id, p.name, p.email, p.phone, p.bio, p.location, p.avatarUrl, p.personalityType,
         p.communicationStyle, p.decisionMaking, JStr(iso(p.createdAt)), JStr(iso(p.updatedAt))])
  }

  /** Reading a person back from its dict keeps every field but the two timestamps, which are new. */
  lemma PersonRoundTrip(p: PersonNode, iso: Clock.Instant -> string, createdAt: Clock.Instant, updatedAt: Clock.Instant)
    ensures PersonFromRecord(PersonToDict(p, iso), createdAt, updatedAt) == p.(createdAt := createdAt, updatedAt := updatedAt)
  {
    var keys := PersonKeys();
    var vals := [p.id, p.name, p.email, p.phone, p.bio, p.location, p.avatarUrl, p.personalityType,
                 p.communicationStyle, p.decisionMaking, JStr(iso(p.createdAt)), JStr(iso(p.updatedAt))];
    assert DistinctKeys(keys);
    GetZip(keys, vals, 0, JStr(""));
    GetZip(keys, vals, 1, JStr(""));
    GetZip(keys, vals, 2, JNull);
    GetZip(keys, vals, 3, JNull);
    GetZip(keys, vals, 4, JNull);
    GetZip(keys, vals, 5, JNull);
    GetZip(keys, vals, 6, JNull);
    GetZip(keys, vals, 7, JNull);
    GetZip(keys, vals, 8, JNull);
    GetZip(keys, vals, 9, JNull);
  }

  datatype CompanyNode = CompanyNode(
    id: Json, name: Json, description: Json, website: Json, industry: Json, size: Json, location: Json,
    logoUrl: Json, createdAt: Clock.Instant)

  /** `CompanyNode.from_record`; the timestamp is new. */
  function CompanyFromRecord(record: Dict, createdAt: Clock.Instant): (c: CompanyNode)
  {
    CompanyNode(Get(record, "id", JStr("")), Get(record, "name", JStr("")), Get(record, "description", JNull),
                Get(record, "website", JNull), Get(record, "industry", JNull), Get(record, "size", JNull),
                Get(record, "location", JNull), Get(record, "logo_url", JNull), createdAt)
  }

  /** With a key missing its field reads as "" (id, name) or None. */
  lemma CompanyMissingKeys(record: Dict, createdAt: Clock.Instant)
    ensures var c := CompanyFromRecord(record, createdAt);
      && c.createdAt == createdAt
      && (!HasKey(record, "id") ==> c.id == JStr(""))
      && (!HasKey(record, "name") ==> c.name == JStr(""))
      && (!HasKey(record, "description") ==> c.description == JNull)
      && (!HasKey(record, "website") ==> c.website == JNull)
      && (!HasKey(record, "industry") ==> c.industry == JNull)
      && (!HasKey(record, "size") ==> c.size == JNull)
      && (!HasKey(record, "location") ==> c.location == JNull)
      && (!HasKey(record, "logo_url") ==> c.logoUrl == JNull)
      && (HasKey(record, "id") ==> ("id", c.id) in record)
  {
  }

  function CompanyKeys(): seq<string>
  {
    ["id", "name", "description", "website", "industry", "size", "location", "logo_url", "created_at"]
  }

  /** `CompanyNode.to_dict`, `created_at` formatted by `iso`. */
  function CompanyToDict(c: CompanyNode, iso: Clock.Instant -> string): Dict
  {
    Zip(CompanyKeys(),
        [c.id, c.name, c.description, c.website, c.industry, c.size, c.location, c.logoUrl, JStr(iso(c.createdAt))])
  }

  /** The company round trip keeps every field but `created_at`. */
  lemma CompanyRoundTrip(c: CompanyNode, iso: Clock.Instant -> string, createdAt: Clock.Instant)
    ensures CompanyFromRecord(CompanyToDict(c, iso), createdAt) == c.(createdAt := createdAt)
  {
    var keys := CompanyKeys();
    var vals := [c.id, c.name, c.description, c.website, c.industry, c.size, c.location, c.logoUrl,
                 JStr(iso(c.createdAt))];
    assert DistinctKeys(keys);
    GetZip(keys, vals, 0, JStr(""));
    GetZip(keys, vals, 1, JStr(""));
    GetZip(keys, vals, 2, JNull);
    GetZip(keys, vals, 3, JNull);
    GetZip(keys, vals, 4, JNull);
    GetZip(keys, vals, 5, JNull);
    GetZip(keys, vals, 6, JNull);
    GetZip(keys, vals, 7, JNull);
  }

  datatype SkillNode = SkillNode(name: Json, category: Json, level: Json)

  /** `SkillNode.from_record` reads the name and category only; `level` keeps its default None. */
  function SkillFromRecord(record: Dict): (s: SkillNode)
    ensures s.level == JNull
    ensures !HasKey(record, "name") ==> s.name == JStr("")
    ensures !HasKey(record, "category") ==> s.category == JNull
    ensures HasKey(record, "name") ==> ("name", s.name) in record
    ensures HasKey(record, "category") ==> ("category", s.category) in record
  {
    SkillNode(Get(record, "name", JStr("")), Get(record, "category", JNull), JNull)
  }

  /** A level stored in the record is lost: name and category come through, the level does not. */
  lemma SkillLevelLost(name: Json, category: Json, level: Json)
    ensures SkillFromRecord([("name", name), ("category", category), ("level", level)])
            == SkillNode(name, category, JNull)
  {
    var d := [("name", name), ("category", category), ("level", level)];
    assert UniqueKeys(d);
    GetUnique(d, 0, JStr(""));
    GetUnique(d, 1, JNull);
  }

  datatype InterestNode = InterestNode(name: Json, category: Json, icon: Json)

  function InterestFromRecord(record: Dict): (i: InterestNode)
    ensures !HasKey(record, "name") ==> i.name == JStr("")
    ensures !HasKey(record, "category") ==> i.category == JNull
    ensures !HasKey(record, "icon") ==> i.icon == JNull
    ensures HasKey(record, "name") ==> ("name", i.name) in record
    ensures HasKey(record, "category") ==> ("category", i.category) in record
    ensures HasKey(record, "icon") ==> ("icon", i.icon) in record
  {
    InterestNode(Get(record, "name", JStr("")), Get(record, "category", JNull), Get(record, "icon", JNull))
  }

  datatype EventNode = EventNode(
    id: Json, title: Json, description: Json, eventType: Json, date: Option<Clock.Instant>, location: Json)

  /** `EventNode.from_record`: `date` is never read, so it keeps its default None; the type defaults to "meeting". */
  function EventFromRecord(record: Dict): (e: EventNode)
    ensures e.date.None?
    ensures !HasKey(record, "id") ==> e.id == JStr("")
    ensures !HasKey(record, "title") ==> e.title == JStr("")
    ensures !HasKey(record, "event_type") ==> e.eventType == JStr("meeting")
    ensures !HasKey(record, "description") ==> e.description == JNull
    ensures !HasKey(record, "location") ==> e.location == JNull
    ensures HasKey(record, "id") ==> ("id", e.id) in record
    ensures HasKey(record, "title") ==> ("title", e.title) in record
    ensures HasKey(record, "description") ==> ("description", e.description) in record
    ensures HasKey(record, "event_type") ==> ("event_type", e.eventType) in record
    ensures HasKey(record, "location") ==> ("location", e.location) in record
  {
    EventNode(Get(record, "id", JStr("")), Get(record, "title", JStr("")), Get(record, "description", JNull),
              Get(record, "event_type", JStr("meeting")), None, Get(record, "location", JNull))
  }

  /** An event stored with a date reads back without one; the other fields come through. */
  lemma EventDateLost(id: Json, title: Json, eventType: Json, date: Json)
    ensures EventFromRecord([("id", id), ("title", title), ("event_type", eventType), ("date", date)])
            == EventNode(id, title, JNull, eventType, None, JNull)
  {
    var d := [("id", id), ("title", title), ("event_type", eventType), ("date", date)];
    assert UniqueKeys(d);
    GetUnique(d, 0, JStr(""));
    GetUnique(d, 1, JStr(""));
    GetUnique(d, 2, JStr("meeting"));
  }

  /** With no keys at all every node gets "" for its id and name (no fresh uuid) and None elsewhere. */
  lemma EmptyRecordNodes(createdAt: Clock.Instant, updatedAt: Clock.Instant)
    ensures PersonFromRecord([], createdAt, updatedAt)
            == PersonNode(JStr(""), JStr(""), JNull, JNull, JNull, JNull, JNull, JNull, JNull, JNull, createdAt, updatedAt)
    ensures CompanyFromRecord([], createdAt)
            == CompanyNode(JStr(""), JStr(""), JNull, JNull, JNull, JNull, JNull, JNull, createdAt)
    ensures SkillFromRecord([]) == SkillNode(JStr(""), JNull, JNull)
    ensures InterestFromRecord([]) == InterestNode(JStr(""), JNull, JNull)
    ensures EventFromRecord([]) == EventNode(JStr(""), JStr(""), JNull, JStr("meeting"), None, JNull)
  {
  }
}
