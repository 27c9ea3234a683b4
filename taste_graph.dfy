// The taste graph records of app/media/taste_graph.py: concept, brand and
// lifestyle nodes read from Neo4j records and written back as dicts, and the
// defaults of the relationships between a person and them. As for the graph
// nodes, the `datetime.utcnow` instants and the `isoformat` of `to_dict` are
// parameters.

module TasteGraph {
  import opened Json
  import Clock

  /** An abstract preference: a style, a taste, an interest. */
  datatype ConceptNode = ConceptNode(
    id: Json, name: Json, category: Json, description: Json, globalPopularity: Json, createdAt: Clock.Instant)

  /** `ConceptNode.from_record`; the timestamp is new. */
  function ConceptFromRecord(record: Dict, createdAt: Clock.Instant): ConceptNode
  {
    ConceptNode(Get(record, "id", JStr("")), Get(record, "name", JStr("")), Get(record, "category", JStr("")),
                Get(record, "description", JNull), Get(record, "global_popularity", JFloat(0.0)), createdAt)
  }

  /** With a key missing its field reads as "", 0.0 for the popularity, or None for the description. */
  lemma ConceptMissingKeys(record: Dict, createdAt: Clock.Instant)
    ensures var c := ConceptFromRecord(record, createdAt);
      && c.createdAt == createdAt
      && (!HasKey(record, "id") ==> c.id == JStr(""))
      && (!HasKey(record, "name") ==> c.name == JStr(""))
      && (!HasKey(record, "category") ==> c.category == JStr(""))
      && (!HasKey(record, "description") ==> c.description == JNull)
      && (!HasKey(record, "global_popularity") ==> c.globalPopularity == JFloat(0.0))
      && (HasKey(record, "id") ==> ("id", c.id) in record)
  {
  }

  function ConceptKeys(): seq<string>
  {
    ["id", "name", "category", "description", "global_popularity", "created_at"]
  }

  /** `ConceptNode.to_dict`, `created_at` formatted by `iso`. */
  function ConceptToDict(c: ConceptNode, iso: Clock.Instant -> string): Dict
  {
    Zip(ConceptKeys(), [c.id, c.name, c.category, c.description, c.globalPopularity, JStr(iso(c.createdAt))])
  }

  /** The round trip keeps id, name, category, description and popularity; only `created_at` is new. */
  lemma ConceptRoundTrip(c: ConceptNode, iso: Clock.Instant -> string, createdAt: Clock.Instant)
    ensures ConceptFromRecord(ConceptToDict(c, iso), createdAt) == c.(createdAt := createdAt)
  {
    var keys := ConceptKeys();
    var vals := [c.id, c.name, c.category, c.description, c.globalPopularity, JStr(iso(c.createdAt))];
    assert DistinctKeys(keys);
    GetZip(keys, vals, 0, JStr(""));
    GetZip(keys, vals, 1, JStr(""));
    GetZip(keys, vals, 2, JStr(""));
    GetZip(keys, vals, 3, JNull);
    GetZip(keys, vals, 4, JFloat(0.0));
  }

  /** A commercial brand. */
  datatype BrandNode = BrandNode(
    id: Json, name: Json, category: Json, logoUrl: Json, website: Json, priceTier: Json, country: Json,
    createdAt: Clock.Instant)

  /** `BrandNode.from_record`; the timestamp is new. */
  function BrandFromRecord(record: Dict, createdAt: Clock.Instant): BrandNode
  {
    BrandNode(Get(record, "id", JStr("")), Get(record, "name", JStr("")), Get(record, "category", JStr("")),
              Get(record, "logo_url", JNull), Get(record, "website", JNull), Get(record, "price_tier", JStr("")),
              Get(record, "country", JNull), createdAt)
  }

  /** With a key missing its field reads as "" (id, name, category, price tier) or None. */
  lemma BrandMissingKeys(record: Dict, createdAt: Clock.Instant)
    ensures var b := BrandFromRecord(record, createdAt);
      && b.createdAt == createdAt
      && (!HasKey(record, "id") ==> b.id == JStr(""))
      && (!HasKey(record, "name") ==> b.name == JStr(""))
      && (!HasKey(record, "category") ==> b.category == JStr(""))
      && (!HasKey(record, "price_tier") ==> b.priceTier == JStr(""))
      && (!HasKey(record, "logo_url") ==> b.logoUrl == JNull)
      && (!HasKey(record, "website") ==> b.website == JNull)
      && (!HasKey(record, "country") ==> b.country == JNull)
      && (HasKey(record, "id") ==> ("id", b.id) in record)
  {
  }

  function BrandKeys(): seq<string>
  {
    ["id", "name", "category", "logo_url", "website", "price_tier", "country", "created_at"]
  }

  /** `BrandNode.to_dict`, `created_at` formatted by `iso`. */
  function BrandToDict(b: BrandNode, iso: Clock.Instant -> string): Dict
  {
    Zip(BrandKeys(), [b.id, b.name, b.category, b.logoUrl, b.website, b.priceTier, b.country, JStr(iso(b.createdAt))])
  }

  /** The round trip keeps all seven fields besides `created_at`. */
  lemma BrandRoundTrip(b: BrandNode, iso: Clock.Instant -> string, createdAt: Clock.Instant)
    ensures BrandFromRecord(BrandToDict(b, iso), createdAt) == b.(createdAt := createdAt)
  {
    var keys := BrandKeys();
    var vals := [b.id, b.name, b.category, b.logoUrl, b.website, b.priceTier, b.country, JStr(iso(b.createdAt))];
    assert DistinctKeys(keys);
    GetZip(keys, vals, 0, JStr(""));
    GetZip(keys, vals, 1, JStr(""));
    GetZip(keys, vals, 2, JStr(""));
    GetZip(keys, vals, 3, JNull);
    GetZip(keys, vals, 4, JNull);
    GetZip(keys, vals, 5, JStr(""));
    GetZip(keys, vals, 6, JNull);
  }

  /** A lifestyle indicator; it has `from_record` but no `to_dict`. */
  datatype LifestyleNode = LifestyleNode(id: Json, name: Json, category: Json, description: Json, createdAt: Clock.Instant)

  function LifestyleFromRecord(record: Dict, createdAt: Clock.Instant): (l: LifestyleNode)
    ensures l.createdAt == createdAt
    ensures !HasKey(record, "id") ==> l.id == JStr("")
    ensures !HasKey(record, "name") ==> l.name == JStr("")
    ensures !HasKey(record, "category") ==> l.category == JStr("")
    ensures !HasKey(record, "description") ==> l.description == JNull
    ensures HasKey(record, "id") ==> ("id", l.id) in record
    ensures HasKey(record, "name") ==> ("name", l.name) in record
    ensures HasKey(record, "category") ==> ("category", l.category) in record
    ensures HasKey(record, "description") ==> ("description", l.description) in record
  {
    LifestyleNode(Get(record, "id", JStr("")), Get(record, "name", JStr("")), Get(record, "category", JStr("")),
                  Get(record, "description", JNull), createdAt)
  }

  /** The sources a like can come from, and how often a brand is worn. */
  function LikeSources(): set<string> { {"media", "manual", "import"} }
  function WearFrequencies(): set<string> { {"rarely", "sometimes", "often", "always"} }

  /** Person -[:LIKES]-> Concept. */
  datatype LikesRelationship = LikesRelationship(
    strength: real, evidenceCount: int, firstSeen: Clock.Instant, lastSeen: Clock.Instant, source: string)

  /** Person -[:WEARS]-> Brand. */
  datatype WearsRelationship = WearsRelationship(
    confidence: real, evidenceCount: int, firstSeen: Clock.Instant, lastSeen: Clock.Instant, frequency: string)

  /** Person -[:HAS_LIFESTYLE]-> Lifestyle. */
  datatype HasLifestyleRelationship = HasLifestyleRelationship(
    confidence: real, description: string, firstSeen: Clock.Instant, lastSeen: Clock.Instant)

  /** What the field comments promise of a like: a strength in 0-1, some evidence, a known source. */
  predicate LikesValid(l: LikesRelationship)
  {
    0.0 <= l.strength <= 1.0 && l.evidenceCount >= 1 && l.source in LikeSources()
  }

  predicate WearsValid(w: WearsRelationship)
  {
    0.0 <= w.confidence <= 1.0 && w.evidenceCount >= 1 && w.frequency in WearFrequencies()
  }

  /** `LikesRelationship()`: strength 0.5, one piece of evidence, from media; both times are `utcnow`. */
  function NewLikes(firstSeen: Clock.Instant, lastSeen: Clock.Instant): (l: LikesRelationship)
    ensures LikesValid(l)
    ensures l.firstSeen == firstSeen && l.lastSeen == lastSeen
  {
    LikesRelationship(0.5, 1, firstSeen, lastSeen, "media")
  }

  /** `WearsRelationship()`: confidence 0.5, one piece of evidence, worn "sometimes". */
  function NewWears(firstSeen: Clock.Instant, lastSeen: Clock.Instant): (w: WearsRelationship)
    ensures WearsValid(w)
    ensures w.firstSeen == firstSeen && w.lastSeen == lastSeen
  {
    WearsRelationship(0.5, 1, firstSeen, lastSeen, "sometimes")
  }

  /** `HasLifestyleRelationship()`: confidence 0.5, no description. */
  function NewHasLifestyle(firstSeen: Clock.Instant, lastSeen: Clock.Instant): (h: HasLifestyleRelationship)
    ensures h.confidence == 0.5 && 0.0 <= h.confidence <= 1.0 && h.description == ""
    ensures h.firstSeen == firstSeen && h.lastSeen == lastSeen
  {
    HasLifestyleRelationship(0.5, "", firstSeen, lastSeen)
  }

  /** The defaults sit in the middle of the range and at its least evidence, whatever the clock says. */
  lemma RelationshipDefaults(firstSeen: Clock.Instant, lastSeen: Clock.Instant)
    ensures NewLikes(firstSeen, lastSeen).strength == NewWears(firstSeen, lastSeen).confidence == 0.5
    ensures NewLikes(firstSeen, lastSeen).evidenceCount == NewWears(firstSeen, lastSeen).evidenceCount == 1
    ensures NewLikes(firstSeen, lastSeen).source == "media"
    ensures NewWears(firstSeen, lastSeen).frequency == "sometimes"
  {
  }
}
