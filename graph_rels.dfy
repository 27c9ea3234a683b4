// The relationship records of app/graph/rels.py: each dataclass read from a
// Neo4j record (`from_record`, `record.get` with the field's default) and
// written back as a dict (`to_dict`). Python does not check the annotated
// field types, so every field read from a record holds whatever value the
// record carried; the one datetime field holds an instant.

module GraphRels {
  import opened Wrappers
  import opened Json
  import Clock

  /** The range the field's comment gives a tie strength: 0.0 (acquaintance) to 1.0 (close friend). */
  predicate UnitInterval(j: Json)
  {
    j.JFloat? && 0.0 <= j.v <= 1.0
  }

  /** (Person)-[:WORKS_AT]->(Company); `until` None means the position is current. */
  datatype WorksAtRel = WorksAtRel(role: Json, department: Json, since: Json, until: Json, isCurrent: Json)

  /** The dataclass defaults. */
  function DefaultWorksAt(): WorksAtRel
  {
    WorksAtRel(JStr(""), JNull, JNull, JNull, JBool(true))
  }

  /** `WorksAtRel.from_record`: a missing key gives the dataclass default of its field. */
  function WorksAtFromRecord(record: Dict): (r: WorksAtRel)
    ensures !HasKey(record, "role") ==> r.role == DefaultWorksAt().role
    ensures !HasKey(record, "is_current") ==> r.isCurrent == DefaultWorksAt().isCurrent
    ensures !HasKey(record, "department") ==> r.department == JNull
    ensures !HasKey(record, "since") ==> r.since == JNull
    ensures !HasKey(record, "until") ==> r.until == JNull
    ensures HasKey(record, "role") ==> ("role", r.role) in record
    ensures HasKey(record, "department") ==> ("department", r.department) in record
    ensures HasKey(record, "since") ==> ("since", r.since) in record
    ensures HasKey(record, "until") ==> ("until", r.until) in record
    ensures HasKey(record, "is_current") ==> ("is_current", r.isCurrent) in record
  {
    WorksAtRel(Get(record, "role", JStr("")), Get(record, "department", JNull), Get(record, "since", JNull),
               Get(record, "until", JNull), Get(record, "is_current", JBool(true)))
  }

  /** `WorksAtRel.to_dict`. */
  function WorksAtToDict(r: WorksAtRel): Dict
  {
    [("role", r.role), ("department", r.department), ("since", r.since), ("until", r.until),
     ("is_current", r.isCurrent)]
  }

  /** Reading a relationship back from its own dict gives it unchanged. */
  lemma WorksAtRoundTrip(r: WorksAtRel)
    ensures WorksAtFromRecord(WorksAtToDict(r)) == r
  {
    var d := WorksAtToDict(r);
    assert UniqueKeys(d);
    GetUnique(d, 0, JStr(""));
    GetUnique(d, 1, JNull);
    GetUnique(d, 2, JNull);
    GetUnique(d, 3, JNull);
    GetUnique(d, 4, JBool(true));
  }

  /** (Person)-[:KNOWS]->(Person). */
  datatype KnowsRel = KnowsRel(strength: Json, context: Json, since: Json, interactionCount: Json,
                               lastInteraction: Option<Clock.Instant>, notes: Json)

  function DefaultKnows(): KnowsRel
  {
    KnowsRel(JFloat(0.5), JNull, JNull, JInt(0), None, JNull)
  }

  /** `KnowsRel.from_record`: `last_interaction` is never read, so it is always None. */
  function KnowsFromRecord(record: Dict): (r: KnowsRel)
    ensures r.lastInteraction.None?
    ensures !HasKey(record, "strength") ==> r.strength == DefaultKnows().strength && UnitInterval(r.strength)
    ensures !HasKey(record, "interaction_count") ==> r.interactionCount == DefaultKnows().interactionCount
    ensures !HasKey(record, "context") ==> r.context == JNull
    ensures !HasKey(record, "since") ==> r.since == JNull
    ensures !HasKey(record, "notes") ==> r.notes == JNull
    ensures HasKey(record, "strength") ==> ("strength", r.strength) in record
    ensures HasKey(record, "context") ==> ("context", r.context) in record
    ensures HasKey(record, "since") ==> ("since", r.since) in record
    ensures HasKey(record, "interaction_count") ==> ("interaction_count", r.interactionCount) in record
    ensures HasKey(record, "notes") ==> ("notes", r.notes) in record
  {
    KnowsRel(Get(record, "strength", JFloat(0.5)), Get(record, "context", JNull), Get(record, "since", JNull),
             Get(record, "interaction_count", JInt(0)), None, Get(record, "notes", JNull))
  }

  /** `t.isoformat() if t else None`; a datetime is always truthy. */
  function IsoOrNone(t: Option<Clock.Instant>): Json
  {
    match t
    case Some(t) => JStr(Clock.IsoFormat(t))
    case None => JNull
  }

  /** `KnowsRel.to_dict`: `last_interaction` as its ISO string. */
  function KnowsToDict(r: KnowsRel): Dict
  {
    [("strength", r.strength), ("context", r.context), ("since", r.since),
     ("interaction_count", r.interactionCount),
     ("last_interaction", IsoOrNone(r.lastInteraction)),
     ("notes", r.notes)]
  }

  /** The round trip keeps every field but `last_interaction`, which comes back None. */
  lemma KnowsRoundTrip(r: KnowsRel)
    ensures KnowsFromRecord(KnowsToDict(r)) == r.(lastInteraction := None)
  {
    var d := KnowsToDict(r);
    assert UniqueKeys(d);
    GetUnique(d, 0, JFloat(0.5));
    GetUnique(d, 1, JNull);
    GetUnique(d, 2, JNull);
    GetUnique(d, 3, JInt(0));
    GetUnique(d, 5, JNull);
  }

  /** So the round trip is the identity exactly on relationships with no `last_interaction`. */
  lemma KnowsRoundTripIdentity(r: KnowsRel)
    ensures r.lastInteraction.None? <==> KnowsFromRecord(KnowsToDict(r)) == r
  {
    KnowsRoundTrip(r);
  }

  /** (Person)-[:HAS_SKILL]->(Skill). */
  datatype HasSkillRel = HasSkillRel(level: Json, yearsExperience: Json, certified: Json, lastUsed: Json)

  function DefaultHasSkill(): HasSkillRel
  {
    HasSkillRel(JStr("intermediate"), JNull, JBool(false), JNull)
  }

  /** `HasSkillRel.from_record`: a missing key gives the dataclass default of its field. */
  function HasSkillFromRecord(record: Dict): (r: HasSkillRel)
    ensures !HasKey(record, "level") ==> r.level == DefaultHasSkill().level
    ensures !HasKey(record, "certified") ==> r.certified == DefaultHasSkill().certified
    ensures !HasKey(record, "years_experience") ==> r.yearsExperience == JNull
    ensures !HasKey(record, "last_used") ==> r.lastUsed == JNull
    ensures HasKey(record, "level") ==> ("level", r.level) in record
    ensures HasKey(record, "years_experience") ==> ("years_experience", r.yearsExperience) in record
    ensures HasKey(record, "certified") ==> ("certified", r.certified) in record
    ensures HasKey(record, "last_used") ==> ("last_used", r.lastUsed) in record
  {
    HasSkillRel(Get(record, "level", JStr("intermediate")), Get(record, "years_experience", JNull),
                Get(record, "certified", JBool(false)), Get(record, "last_used", JNull))
  }

  function HasSkillToDict(r: HasSkillRel): Dict
  {
    [("level", r.level), ("years_experience", r.yearsExperience), ("certified", r.certified),
     ("last_used", r.lastUsed)]
  }

  lemma HasSkillRoundTrip(r: HasSkillRel)
    ensures HasSkillFromRecord(HasSkillToDict(r)) == r
  {
    var d := HasSkillToDict(r);
    assert UniqueKeys(d);
    GetUnique(d, 0, JStr("intermediate"));
    GetUnique(d, 1, JNull);
    GetUnique(d, 2, JBool(false));
    GetUnique(d, 3, JNull);
  }

  /** (Person)-[:INTERESTED_IN]->(Interest). */
  datatype InterestedInRel = InterestedInRel(level: Json, since: Json)

  function DefaultInterestedIn(): InterestedInRel
  {
    InterestedInRel(JStr("hobby"), JNull)
  }

  function InterestedInFromRecord(record: Dict): (r: InterestedInRel)
    ensures !HasKey(record, "level") ==> r.level == DefaultInterestedIn().level
    ensures !HasKey(record, "since") ==> r.since == JNull
    ensures HasKey(record, "level") ==> ("level", r.level) in record
    ensures HasKey(record, "since") ==> ("since", r.since) in record
  {
    InterestedInRel(Get(record, "level", JStr("hobby")), Get(record, "since", JNull))
  }

  function InterestedInToDict(r: InterestedInRel): Dict
  {
    [("level", r.level), ("since", r.since)]
  }

  lemma InterestedInRoundTrip(r: InterestedInRel)
    ensures InterestedInFromRecord(InterestedInToDict(r)) == r
  {
    var d := InterestedInToDict(r);
    assert UniqueKeys(d);
    GetUnique(d, 0, JStr("hobby"));
    GetUnique(d, 1, JNull);
  }

  /** (Person)-[:PARTICIPATED_IN]->(Event). */
  datatype ParticipatedInRel = ParticipatedInRel(role: Json, notes: Json)

  function DefaultParticipatedIn(): ParticipatedInRel
  {
    ParticipatedInRel(JStr("attendee"), JNull)
  }

  function ParticipatedInFromRecord(record: Dict): (r: ParticipatedInRel)
    ensures !HasKey(record, "role") ==> r.role == DefaultParticipatedIn().role
    ensures !HasKey(record, "notes") ==> r.notes == JNull
    ensures HasKey(record, "role") ==> ("role", r.role) in record
    ensures HasKey(record, "notes") ==> ("notes", r.notes) in record
  {
    ParticipatedInRel(Get(record, "role", JStr("attendee")), Get(record, "notes", JNull))
  }

  function ParticipatedInToDict(r: ParticipatedInRel): Dict
  {
    [("role", r.role), ("notes", r.notes)]
  }

  lemma ParticipatedInRoundTrip(r: ParticipatedInRel)
    ensures ParticipatedInFromRecord(ParticipatedInToDict(r)) == r
  {
    var d := ParticipatedInToDict(r);
    assert UniqueKeys(d);
    GetUnique(d, 0, JStr("attendee"));
    GetUnique(d, 1, JNull);
  }

  /** An empty record reads as the dataclass defaults, for every relationship. */
  lemma EmptyRecordsGiveDefaults()
    ensures WorksAtFromRecord([]) == DefaultWorksAt()
    ensures KnowsFromRecord([]) == DefaultKnows()
    ensures HasSkillFromRecord([]) == DefaultHasSkill()
    ensures InterestedInFromRecord([]) == DefaultInterestedIn()
    ensures ParticipatedInFromRecord([]) == DefaultParticipatedIn()
  {
  }
}
