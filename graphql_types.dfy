// The personality part of the GraphQL schema in app/api/graphql/types.py:
// `PersonalityType.summary`, which joins the traits a person has into one
// line, and `PersonType.personality`, which hands a person's traits to it.
// The resolvers that query the graph are not modelled.

module GraphqlTypes {
  import opened Wrappers
  import opened Text

  /** Python truthiness of an `Optional[str]`: set and not empty. */
  predicate Present(t: Option<string>)
  {
    t.Some? && t.value != ""
  }

  datatype PersonalityType = PersonalityType(
    personalityType: Option<string>, communicationStyle: Option<string>, decisionMaking: Option<string>)

  /** The part a trait adds to the summary: its heading and value, or nothing when it is absent. */
  function Part(heading: string, t: Option<string>): (r: seq<string>)
    ensures Present(t) <==> r != []
    ensures Present(t) ==> r == [heading + t.value]
  {
    if Present(t) then [heading + t.value] else []
  }

  /** The parts of the summary, type first, then communication, then decision making. */
  function Parts(p: PersonalityType): seq<string>
  {
    Part("Тип: ", p.personalityType)
    + Part("Коммуникация: ", p.communicationStyle)
    + Part("Принятие решений: ", p.decisionMaking)
  }

  /** `summary`: the parts joined by ". ", or None when there is none. */
  function Summary(p: PersonalityType): (r: Option<string>)
    ensures r.None? <==> !Present(p.personalityType) && !Present(p.communicationStyle) && !Present(p.decisionMaking)
  {
    var parts := Parts(p);
    if parts != [] then Some(Join(parts, ". ")) else None
  }

  /** With all three traits the summary is the three labelled values in the fixed order. */
  lemma SummaryOfAll(t: string, c: string, d: string)
    requires t != "" && c != "" && d != ""
    ensures Summary(PersonalityType(Some(t), Some(c), Some(d)))
            == Some(("Тип: " + t) + ". " + ("Коммуникация: " + c) + ". " + ("Принятие решений: " + d))
  {
    var p0, p1, p2 := "Тип: " + t, "Коммуникация: " + c, "Принятие решений: " + d;
    assert Parts(PersonalityType(Some(t), Some(c), Some(d))) == [p0, p1, p2];
    JoinCons(p1, [p2], ". ");
    assert [p1, p2] == [p1] + [p2];
    JoinCons(p0, [p1, p2], ". ");
    assert [p0, p1, p2] == [p0] + [p1, p2];
    assert Join([p0, p1, p2], ". ") == p0 + ". " + (p1 + ". " + p2);
    assert p0 + ". " + (p1 + ". " + p2) == p0 + ". " + p1 + ". " + p2;
  }

  /** Two traits give their labelled values in the fixed order, with one separator between them. */
  lemma SummaryOfTwo(t: Option<string>, c: Option<string>, d: Option<string>)
    ensures Present(t) && Present(c) && !Present(d) ==>
              Summary(PersonalityType(t, c, d)) == Some("Тип: " + t.value + ". " + "Коммуникация: " + c.value)
    ensures Present(t) && !Present(c) && Present(d) ==>
              Summary(PersonalityType(t, c, d)) == Some("Тип: " + t.value + ". " + "Принятие решений: " + d.value)
    ensures !Present(t) && Present(c) && Present(d) ==>
              Summary(PersonalityType(t, c, d)) == Some("Коммуникация: " + c.value + ". " + "Принятие решений: " + d.value)
  {
    var p := PersonalityType(t, c, d);
    if Present(t) && Present(c) && !Present(d) {
      assert Parts(p) == ["Тип: " + t.value, "Коммуникация: " + c.value];
      JoinPair("Тип: ", t.value, "Коммуникация: ", c.value);
    }
    if Present(t) && !Present(c) && Present(d) {
      assert Parts(p) == ["Тип: " + t.value, "Принятие решений: " + d.value];
      JoinPair("Тип: ", t.value, "Принятие решений: ", d.value);
    }
    if !Present(t) && Present(c) && Present(d) {
      assert Parts(p) == ["Коммуникация: " + c.value, "Принятие решений: " + d.value];
      JoinPair("Коммуникация: ", c.value, "Принятие решений: ", d.value);
    }
  }

  /** Two labelled values joined by ". ". */
  lemma JoinPair(h1: string, v1: string, h2: string, v2: string)
    ensures Join([h1 + v1, h2 + v2], ". ") == h1 + v1 + ". " + h2 + v2
  {
    assert [h1 + v1, h2 + v2][1..] == [h2 + v2];
    assert (h1 + v1) + ". " + (h2 + v2) == h1 + v1 + ". " + h2 + v2;
  }

  /** A single trait gives its labelled value alone, with no separator. */
  lemma SummaryOfOne(t: Option<string>, c: Option<string>, d: Option<string>)
    ensures Present(t) && !Present(c) && !Present(d) ==>
              Summary(PersonalityType(t, c, d)) == Some("Тип: " + t.value)
    ensures !Present(t) && Present(c) && !Present(d) ==>
              Summary(PersonalityType(t, c, d)) == Some("Коммуникация: " + c.value)
    ensures !Present(t) && !Present(c) && Present(d) ==>
              Summary(PersonalityType(t, c, d)) == Some("Принятие решений: " + d.value)
  {
  }

  /** The first trait present opens the summary. */
  lemma SummaryOpensWithFirst(p: PersonalityType)
    ensures Present(p.personalityType) ==>
              StartsWith(Summary(p).value, "Тип: " + p.personalityType.value)
    ensures !Present(p.personalityType) && Present(p.communicationStyle) ==>
              StartsWith(Summary(p).value, "Коммуникация: " + p.communicationStyle.value)
    ensures !Present(p.personalityType) && !Present(p.communicationStyle) && Present(p.decisionMaking) ==>
              StartsWith(Summary(p).value, "Принятие решений: " + p.decisionMaking.value)
  {
    var parts := Parts(p);
    if parts != [] {
      JoinStartsWithFirst(parts, ". ");
    }
  }

  /** Every trait present appears in the summary under its heading. */
  lemma SummaryMentionsEach(p: PersonalityType)
    ensures Present(p.personalityType) ==> Contains(Summary(p).value, "Тип: " + p.personalityType.value)
    ensures Present(p.communicationStyle) ==> Contains(Summary(p).value, "Коммуникация: " + p.communicationStyle.value)
    ensures Present(p.decisionMaking) ==> Contains(Summary(p).value, "Принятие решений: " + p.decisionMaking.value)
  {
    var parts := Parts(p);
    var a := Part("Тип: ", p.personalityType);
    var b := Part("Коммуникация: ", p.communicationStyle);
    var c := Part("Принятие решений: ", p.decisionMaking);
    if Present(p.personalityType) {
      JoinHasPart(parts, ". ", 0);
    }
    if Present(p.communicationStyle) {
      assert parts[|a|] == b[0];
      JoinHasPart(parts, ". ", |a|);
    }
    if Present(p.decisionMaking) {
      assert parts[|a| + |b|] == c[0];
      JoinHasPart(parts, ". ", |a| + |b|);
    }
  }

  /** A string that contains `sub` still does after something is put in front. */
  lemma ContainsAfterPrefix(u: string, s: string, sub: string)
    requires Contains(s, sub)
    ensures Contains(u + s, sub)
  {
    ContainsOccurs(s, sub);
    var i :| OccursAt(s, sub, i);
    assert (u + s)[|u| + i..|u| + i + |sub|] == s[i..i + |sub|];
    OccursContains(u + s, sub, |u| + i);
  }

  /** Each piece of a join occurs in it. */
  lemma {:induction false} JoinHasPart(parts: seq<string>, sep: string, i: nat)
    requires i < |parts|
    ensures Contains(Join(parts, sep), parts[i])
  {
    if i == 0 {
      JoinStartsWithFirst(parts, sep);
      OccursContains(Join(parts, sep), parts[0], 0);
    } else {
      JoinHasPart(parts[1..], sep, i - 1);
      ContainsAfterPrefix(parts[0] + sep, Join(parts[1..], sep), parts[i]);
      assert Join(parts, sep) == (parts[0] + sep) + Join(parts[1..], sep);
    }
  }

  /** A person as the schema exposes it. */
  datatype PersonType = PersonType(
    id: string, name: string, email: Option<string>, phone: Option<string>, bio: Option<string>,
    location: Option<string>, avatarUrl: Option<string>,
    personalityType: Option<string>, communicationStyle: Option<string>, decisionMaking: Option<string>)

  /** `PersonType.personality`: the person's three traits, unchanged. */
  function Personality(person: PersonType): (r: PersonalityType)
    ensures r.personalityType == person.personalityType
    ensures r.communicationStyle == person.communicationStyle
    ensures r.decisionMaking == person.decisionMaking
  {
    PersonalityType(person.personalityType, person.communicationStyle, person.decisionMaking)
  }

  /** A person's summary depends on the three traits only, and is None exactly when all are unset or empty. */
  lemma PersonSummary(person: PersonType, other: PersonType)
    ensures Summary(Personality(person)).None? <==>
              !Present(person.personalityType) && !Present(person.communicationStyle) && !Present(person.decisionMaking)
    ensures person.personalityType == other.personalityType && person.communicationStyle == other.communicationStyle
            && person.decisionMaking == other.decisionMaking ==>
              Summary(Personality(person)) == Summary(Personality(other))
  {
  }
}
