/**
  The recommendations panel (client/src/components/Recommendations.js): how it
  unwraps the server's `recommendations` field on both of its call sites, and
  when it shows the "generate" prompt instead of the list.
 */
module RecommendationsView {
  import opened JsValues

  /** The component state the two handlers update. */
  datatype View = View(recommendations: Option<Json>, error: Json)

  /**
    An axios call: resolved with `response.data`, or rejected with
    `err.response?.data` (None when the error has no response).
   */
  datatype Reply = Delivered(data: Json) | Refused(body: Option<Json>)

  /**
    `Array.isArray(r) ? r : r.recommendations || []` for `r` the response's
    `recommendations` field; it throws when that field is undefined or null.
   */
  function Unwrap(payload: Option<Json>): (r: Result<Json>)
    ensures r.Err? <==> payload.None? || payload.value.JNull?
    ensures payload.Some? && payload.value.JArr? ==> r == Ok(payload.value)
    ensures payload.Some? && !payload.value.JArr? && Truthy(Field(payload.value, "recommendations")) ==>
      r == Ok(payload.value.fields["recommendations"])
    ensures payload.Some? && !payload.value.JArr? && !payload.value.JNull?
            && !Truthy(Field(payload.value, "recommendations"))
            ==> r == Ok(JArr([]))
  {
    match payload
    case None => Err("Cannot read properties of undefined (reading 'recommendations')")
    case Some(JNull) => Err("Cannot read properties of null (reading 'recommendations')")
    case Some(JArr(_)) => Ok(payload.value)
    case Some(p) => Ok(Or(Field(p, "recommendations"), Some(JArr([]))).value)
  }

  /** `checkExistingRecommendations`: any failure leaves the panel as it was. */
  function CheckExisting(v: View, reply: Reply): (w: View)
    ensures w.error == v.error
    ensures reply.Delivered? && Unwrap(Field(reply.data, "recommendations")).Ok? ==>
      w.recommendations == Some(Unwrap(Field(reply.data, "recommendations")).value)
    ensures reply.Refused? || Unwrap(Field(reply.data, "recommendations")).Err? ==> w == v
  {
    match reply
    case Refused(_) => v
    case Delivered(data) =>
      match Unwrap(Field(data, "recommendations"))
      case Ok(recs) => View(Some(recs), v.error)
      case Err(_) => v
  }

  const GenerateFailed := JStr("Failed to generate recommendations")

  /** `err.response?.data?.error || 'Failed to generate recommendations'`. */
  function ErrorText(data: Option<Json>): (e: Json)
    ensures Truthy(Some(e))
    ensures data.Some? && Truthy(Field(data.value, "error")) ==> e == data.value.fields["error"]
    ensures data.None? || !Truthy(Field(data.value, "error")) ==> e == GenerateFailed
  {
    match data
    case None => GenerateFailed
    case Some(d) => Or(Field(d, "error"), Some(GenerateFailed)).value
  }

  /** `generateRecommendations`: clears the error, then records the list or a failure. */
  function AfterGenerate(v: View, reply: Reply): (w: View)
    ensures reply.Delivered? && Unwrap(Field(reply.data, "recommendations")).Ok? ==>
      w == View(Some(Unwrap(Field(reply.data, "recommendations")).value), JStr(""))
    ensures reply.Delivered? && Unwrap(Field(reply.data, "recommendations")).Err? ==>
      w == View(v.recommendations, GenerateFailed)
    ensures reply.Refused? ==> w == View(v.recommendations, ErrorText(reply.body))
  {
    match reply
    case Refused(data) => View(v.recommendations, ErrorText(data))
    case Delivered(data) =>
      match Unwrap(Field(data, "recommendations"))
      case Ok(recs) => View(Some(recs), JStr(""))
      case Err(_) => View(v.recommendations, GenerateFailed)
  }

  /** Both call sites install the same list for the same server answer. */
  lemma CallSitesAgree(v1: View, v2: View, data: Json)
    ensures CheckExisting(v1, Delivered(data)).recommendations == AfterGenerate(v2, Delivered(data)).recommendations
         || Unwrap(Field(data, "recommendations")).Err?
  {
  }

  /** `!recommendations || recommendations.length === 0`. */
  predicate ShowsGenerate(recommendations: Option<Json>) {
    !Truthy(recommendations) || LengthOf(recommendations.value) == Some(JNum(0.0))
  }

  /**
    A list is shown exactly when it is non-empty, and an object answer without
    a `recommendations` list leaves the panel on its "generate" prompt.
   */
  lemma GeneratePromptOnEmpty(xs: seq<Json>, fields: map<string, Json>)
    requires "recommendations" !in fields
    ensures ShowsGenerate(Some(JArr(xs))) <==> xs == []
    ensures ShowsGenerate(Some(Unwrap(Some(JObj(fields))).value))
    ensures ShowsGenerate(None)
  {
  }
}
