/**
 The `CitizenRequest` record of the structured routers: three string fields, its
 `model_dump()` as a JSON object, and reading such an object back.
 */
module CitizenRequests {
  import opened Options
  import opened JsonValues
  import Departments

  datatype CitizenRequest = CitizenRequest(
    requestDate: string,
    requestTopic: string,
    targetDepartment: string)

  const DateKey: string := "request_date"
  const TopicKey: string := "request_topic"
  const DepartmentKey: string := "target_department"

  /** The topic placeholder of the fallback record. */
  const UnknownTopic: string := "Не удалось определить тему"

  /** The record returned (and, in the third version, stored) when classification fails. */
  function Fallback(now: string): (r: CitizenRequest)
    ensures r.requestDate == now
    ensures r.requestTopic == UnknownTopic && r.targetDepartment == Departments.Unresolved
    ensures !Departments.IsDepartment(r.targetDepartment)
  {
    Departments.RegistryWellFormed();
    CitizenRequest(now, UnknownTopic, Departments.Unresolved)
  }

  /** `model_dump()`: an object with exactly the three field names, each holding its string. */
  function Dump(r: CitizenRequest): (j: Json)
    ensures j.JObject? && j.fields.Keys == {DateKey, TopicKey, DepartmentKey}
    ensures j.fields[DateKey] == JString(r.requestDate)
    ensures j.fields[TopicKey] == JString(r.requestTopic)
    ensures j.fields[DepartmentKey] == JString(r.targetDepartment)
  {
    JObject(map[
      DateKey := JString(r.requestDate),
      TopicKey := JString(r.requestTopic),
      DepartmentKey := JString(r.targetDepartment)])
  }

  /** Validating a stored JSON value as a `CitizenRequest`: all three keys must hold strings. */
  function Load(j: Json): (r: Option<CitizenRequest>)
    ensures r.Some? <==> j.JObject? && forall k :: k in {DateKey, TopicKey, DepartmentKey} ==>
      k in j.fields && j.fields[k].JString?
    ensures r.Some? ==> forall k :: k in Dump(r.value).fields ==>
      k in j.fields && j.fields[k] == Dump(r.value).fields[k]
  {
    match (StringField(j, DateKey), StringField(j, TopicKey), StringField(j, DepartmentKey))
    case (Some(date), Some(topic), Some(department)) =>
      Some(CitizenRequest(date, topic, department))
    case _ => None
  }

  /** A dumped record reads back field for field. */
  lemma LoadDump(r: CitizenRequest)
    ensures Load(Dump(r)) == Some(r)
  {
  }
}
