/** The risk of serious harm summary page
    (server/form-pages/apply/risks-and-needs/risk-of-serious-harm/summary.ts). */
module SummaryPage {
  import opened JsValues

  const PageName := "summary"

  /** Response keys and the `value` fields they show, in the order of the page. */
  const RatingKeys: seq<string> :=
    ["Over all risk rating", "Risk to children", "Risk to known adult", "Risk to public", "Risk to staff"]
  const RatingFields: seq<string> :=
    ["overallRisk", "riskToChildren", "riskToKnownAdult", "riskToPublic", "riskToStaff"]

  /** A constructed page: its body, the `risks` field the constructor derives
      (None while unset) and the additional-comments question text, which comes
      from the question table for the person. */
  datatype Summary = Summary(body: Record, risks: Option<Record>, commentsQuestion: string)

  /** `new Summary(body, application)`; `formatDate` stands for
      `DateFormats.isoDateToUIDate(_, { format: 'medium' })`. */
  function NewSummary(body: Record, commentsQuestion: string, formatDate: Value -> Value): (p: Summary)
    ensures p.body == body && p.commentsQuestion == commentsQuestion
    ensures p.risks.Some? <==> Get(body, "status") == Str("retrieved")
    ensures p.risks.Some? ==> p.risks.value.Keys == body.Keys + {"lastUpdated"}
    ensures p.risks.Some? ==> forall k :: k in body && k != "lastUpdated" ==> p.risks.value[k] == body[k]
    ensures p.risks.Some? ==>
      var lastUpdated := Field(Get(body, "value"), "lastUpdated");
      p.risks.value["lastUpdated"] == if Truthy(lastUpdated) then formatDate(lastUpdated) else Null
  {
    var risks :=
      if Get(body, "status") == Str("retrieved") then
        var lastUpdated := Field(Get(body, "value"), "lastUpdated");
        Some(body["lastUpdated" := if Truthy(lastUpdated) then formatDate(lastUpdated) else Null])
      else None;
    Summary(body, risks, commentsQuestion)
  }

  function Previous(p: Summary): string
  {
    "taskList"
  }

  function Next(p: Summary): string
  {
    "risk-to-others"
  }

  /** The page is entered from the task list and continues with the risk to others page. */
  lemma Navigation(p: Summary)
    ensures Previous(p) == "taskList" && Next(p) == "risk-to-others"
  {
  }

  /** The page never reports a validation error. */
  function Errors(p: Summary): (e: map<string, string>)
    ensures e == map[]
  {
    map[]
  }

  /** `riskRatings?.<field> || 'Unknown'`. */
  function Rating(p: Summary, field: string): Value
  {
    var rating := Field(Get(p.body, "value"), field);
    if Truthy(rating) then rating else Str("Unknown")
  }

  /** The five rating keys are always present, each holding the stored rating or
      'Unknown'; the comments question is added exactly when comments were given. */
  function Response(p: Summary): (r: Record)
    ensures forall i :: 0 <= i < |RatingKeys| ==> RatingKeys[i] in r
    ensures forall i :: 0 <= i < |RatingKeys| && RatingKeys[i] != p.commentsQuestion ==>
      r[RatingKeys[i]] == (if Truthy(Field(Get(p.body, "value"), RatingFields[i]))
                           then Field(Get(p.body, "value"), RatingFields[i]) else Str("Unknown"))
    ensures p.commentsQuestion in r <==> Truthy(Get(p.body, "additionalComments")) || p.commentsQuestion in RatingKeys
    ensures Truthy(Get(p.body, "additionalComments")) ==> r[p.commentsQuestion] == Get(p.body, "additionalComments")
    ensures forall k :: k in r ==> k in RatingKeys || k == p.commentsQuestion
  {
    var response := map[
      RatingKeys[0] := Rating(p, RatingFields[0]),
      RatingKeys[1] := Rating(p, RatingFields[1]),
      RatingKeys[2] := Rating(p, RatingFields[2]),
      RatingKeys[3] := Rating(p, RatingFields[3]),
      RatingKeys[4] := Rating(p, RatingFields[4])];
    if Truthy(Get(p.body, "additionalComments")) then
      response[p.commentsQuestion := Get(p.body, "additionalComments")]
    else response
  }
}
