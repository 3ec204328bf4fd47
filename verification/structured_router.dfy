/**
 The second router version: the oracle is asked for a JSON object with a topic and a
 department; the two strings are copied verbatim into a `CitizenRequest`. Any failure on
 the way (oracle error, undecodable text, a value that is not an object, a missing key,
 a non-string field) yields the fallback record. The department is NOT checked against
 the registry here.
 */
module StructuredRouter {
  import opened Options
  import opened Text
  import opened JsonValues
  import opened Departments
  import opened Oracle
  import opened CitizenRequests

  /**
   Building the record from the decoded value: `data["request_topic"]` and
   `data["target_department"]` must both exist and be strings.
   */
  function Extract(data: Json, now: string): (r: Option<CitizenRequest>)
    ensures r.Some? <==> StringField(data, TopicKey).Some? && StringField(data, DepartmentKey).Some?
    ensures r.Some? ==> r.value.requestDate == now
  {
    match (StringField(data, TopicKey), StringField(data, DepartmentKey))
    case (Some(topic), Some(department)) => Some(CitizenRequest(now, topic, department))
    case _ => None
  }

  /** The text handed to the decoder: the stripped content of a successful reply. */
  function DecodedReply(reply: Reply, decode: string -> Decoded): (d: Decoded)
    ensures reply.Failure? ==> d.NotJson?
    ensures reply.Answer? ==> d == decode(Strip(reply.text))
  {
    match reply
    case Failure => NotJson
    case Answer(text) => decode(Strip(text))
  }

  /** Interpreting one reply; every path returns a record stamped with `now`. */
  function Interpret(reply: Reply, decode: string -> Decoded, now: string): (r: CitizenRequest)
    ensures r.requestDate == now
    ensures r == Fallback(now)
      || (DecodedReply(reply, decode).Parsed? && Extract(DecodedReply(reply, decode).value, now) == Some(r))
  {
    match DecodedReply(reply, decode)
    case NotJson => Fallback(now)
    case Parsed(data) =>
      match Extract(data, now)
      case Some(record) => record
      case None => Fallback(now)
  }

  /** `classify_request`: one oracle call on the structured prompt, then interpretation. */
  function ClassifyRequest(request: string, oracle: PromptArgs -> Reply, decode: string -> Decoded, now: string)
    : (r: CitizenRequest)
    ensures r.requestDate == now
    ensures oracle(PromptFor(Structured, request)).Failure? ==> r == Fallback(now)
  {
    Interpret(oracle(PromptFor(Structured, request)), decode, now)
  }

  /** A well-formed object's two strings land in the record verbatim. */
  lemma FieldsCopiedVerbatim(text: string, decode: string -> Decoded, now: string, topic: string, department: string)
    requires decode(Strip(text)).Parsed?
    requires StringField(decode(Strip(text)).value, TopicKey) == Some(topic)
    requires StringField(decode(Strip(text)).value, DepartmentKey) == Some(department)
    ensures Interpret(Answer(text), decode, now) == CitizenRequest(now, topic, department)
  {
  }

  /** Every failure leads to the fallback record. */
  lemma FailuresFallBack(reply: Reply, decode: string -> Decoded, now: string)
    requires
      || reply.Failure?
      || decode(Strip(reply.text)).NotJson?
      || !decode(Strip(reply.text)).value.JObject?
      || TopicKey !in decode(Strip(reply.text)).value.fields
      || DepartmentKey !in decode(Strip(reply.text)).value.fields
      || !decode(Strip(reply.text)).value.fields[TopicKey].JString?
      || !decode(Strip(reply.text)).value.fields[DepartmentKey].JString?
    ensures Interpret(reply, decode, now) == Fallback(now)
  {
  }

  /** Keys other than the two read are ignored: objects agreeing on them give the same record. */
  lemma OtherKeysIgnored(a: map<string, Json>, b: map<string, Json>, now: string)
    requires forall k :: k in {TopicKey, DepartmentKey} ==> (k in a <==> k in b)
    requires forall k :: k in {TopicKey, DepartmentKey} && k in a ==> a[k] == b[k]
    ensures Extract(JObject(a), now) == Extract(JObject(b), now)
  {
  }

  /**
   No membership check: any department string the oracle reports, including one outside
   the registry, is routed to as given.
   */
  lemma UnknownDepartmentPassesThrough(topic: string, department: string, now: string)
    requires !IsDepartment(department)
    ensures Extract(JObject(map[TopicKey := JString(topic), DepartmentKey := JString(department)]), now)
      == Some(CitizenRequest(now, topic, department))
  {
  }

  /**
   The record's department is either the sentinel of the fallback or exactly the string
   the oracle's object held; it is a registry name only if the oracle named one.
   */
  lemma DepartmentOrigin(reply: Reply, decode: string -> Decoded, now: string)
    ensures var r := Interpret(reply, decode, now);
      var d := DecodedReply(reply, decode);
      || r == Fallback(now)
      || (d.Parsed? && StringField(d.value, DepartmentKey) == Some(r.targetDepartment)
          && StringField(d.value, TopicKey) == Some(r.requestTopic))
  {
  }

  /** A dumped record, re-read as an oracle object at its own timestamp, yields itself. */
  lemma ExtractDump(r: CitizenRequest)
    ensures Extract(Dump(r), r.requestDate) == Some(r)
  {
  }

  /** The potholes reply in JSON: the topic is kept verbatim, not re-summarised. */
  lemma PotholesTopicVerbatim(oracle: PromptArgs -> Reply, decode: string -> Decoded, now: string)
    requires oracle(PromptFor(Structured, "Ямы на дороге возле дома")).Answer?
    requires decode(Strip(oracle(PromptFor(Structured, "Ямы на дороге возле дома")).text))
      == Parsed(JObject(map[TopicKey := JString("Ямы на дороге"),
                            DepartmentKey := JString("Департамент транспорта")]))
    ensures ClassifyRequest("Ямы на дороге возле дома", oracle, decode, now)
      == CitizenRequest(now, "Ямы на дороге", "Департамент транспорта")
  {
  }

  /** A reply that decodes to an array or a string is not an object and falls back. */
  lemma NonObjectFallsBack(items: seq<Json>, text: string, now: string)
    ensures Extract(JArray(items), now) == None
    ensures Extract(JString(text), now) == None
  {
  }
}
