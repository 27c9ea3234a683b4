// The event consumer of app/events/consumer.py: how a message's event type is
// decided and the event dict handed to the enrichment pipeline. The Kafka
// connection, the consume loop and the pipeline itself are not modelled.

module EventConsumer {
  import opened Wrappers
  import opened Json
  import opened Text

  /** The topic words checked in order when the message names no type. */
  function TopicKinds(): seq<string>
  {
    ["email", "linkedin", "resume", "contact"]
  }

  /** The first of `kinds` that occurs in the topic. */
  function FirstMatch(topic: string, kinds: seq<string>): (r: Option<nat>)
    ensures r.Some? ==> r.value < |kinds| && Contains(topic, kinds[r.value])
                        && forall j :: 0 <= j < r.value ==> !Contains(topic, kinds[j])
    ensures r.None? ==> forall j :: 0 <= j < |kinds| ==> !Contains(topic, kinds[j])
  {
    if kinds == [] then None
    else if Contains(topic, kinds[0]) then Some(0)
    else
      match FirstMatch(topic, kinds[1..])
      case None => None
      case Some(k) => Some(k + 1)
  }

  /** `_get_event_type`: an explicit "type" wins; else the topic checked for email, linkedin, resume, contact. */
  function EventType(topic: string, value: Dict): Json
  {
    if HasKey(value, "type") then Lookup(value, "type").value
    else if Contains(topic, "email") then JStr("email")
    else if Contains(topic, "linkedin") then JStr("linkedin")
    else if Contains(topic, "resume") then JStr("resume")
    else if Contains(topic, "contact") then JStr("contact")
    else JStr("unknown")
  }

  /**
   * The type is the message's own when it has one; otherwise it is the first
   * topic word, in the fixed order, that the topic contains, and "unknown"
   * when it contains none of them.
   */
  lemma EventTypeIsFirstMatch(topic: string, value: Dict)
    ensures HasKey(value, "type") ==> EventType(topic, value) == Lookup(value, "type").value
    ensures !HasKey(value, "type") ==>
              EventType(topic, value) ==
                match FirstMatch(topic, TopicKinds())
                case None => JStr("unknown")
                case Some(k) => JStr(TopicKinds()[k])
  {
    var kinds := TopicKinds();
    assert kinds[0] == "email" && kinds[1] == "linkedin" && kinds[2] == "resume" && kinds[3] == "contact";
    var m := FirstMatch(topic, kinds);
    if m.Some? {
      assert m.value == 0 || m.value == 1 || m.value == 2 || m.value == 3;
    }
  }

  /** The order of the tests decides, not where a word sits in the topic. */
  lemma EmailBeforeLinkedIn()
    ensures EventType("linkedin-email", []) == JStr("email")
  {
    var topic := "linkedin-email";
    assert topic[9..14] == "email";
    OccursContains(topic, "email", 9);
  }

  /**
   * The event dict of `_process_message`: the type, the topic as source,
   * and the message's "data" as payload, the whole message when it has none.
   * A message that is not a dict raises AttributeError at `value.get`.
   */
  function Event(topic: string, value: Json): (r: Result<Dict>)
    ensures r.Ok? <==> value.JObj?
    ensures r.Err? ==> r.error == AttributeError
    ensures r.Ok? ==> Get(r.value, "type", JNull) == EventType(topic, value.fields)
                      && Get(r.value, "source", JNull) == JStr(topic)
                      && Get(r.value, "payload", JNull) ==
                           (if HasKey(value.fields, "data") then Lookup(value.fields, "data").value else value)
  {
    if !value.JObj? then Err(AttributeError)
    else
      var event := [("type", EventType(topic, value.fields)), ("source", JStr(topic)),
                    ("payload", Get(value.fields, "data", value))];
      LookupFirst(event, "type", 0);
      LookupFirst(event, "source", 1);
      LookupFirst(event, "payload", 2);
      Ok(event)
  }
}
