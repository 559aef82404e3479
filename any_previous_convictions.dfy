/** The previous convictions page of the offending history task
    (server/form-pages/apply/offence-and-licence-information/offending-history/anyPreviousConvictions.ts). */
module AnyPreviousConvictionsPage {
  import opened JsValues

  const PageName := "any-previous-convictions"

  const AnswerField := "hasAnyPreviousConvictions"
  const AnswerMessage := "Confirm whether the applicant has any previous convictions"

  datatype AnyPreviousConvictions = AnyPreviousConvictions(body: Record)

  function Previous(p: AnyPreviousConvictions): string
  {
    "taskList"
  }

  /** The empty page name: the last page of its task. */
  function Next(p: AnyPreviousConvictions): string
  {
    ""
  }

  /** The page is entered from the task list and is the only page of its task. */
  lemma Navigation(p: AnyPreviousConvictions)
    ensures Previous(p) == "taskList" && Next(p) == ""
  {
  }

  /** The one answer is required; any non-empty answer passes. */
  function Errors(p: AnyPreviousConvictions): (e: map<string, string>)
    ensures AnswerField in e <==> !Truthy(Get(p.body, AnswerField))
    ensures e.Keys <= {AnswerField}
    ensures AnswerField in e ==> e[AnswerField] == AnswerMessage
  {
    if !Truthy(Get(p.body, AnswerField)) then map[AnswerField := AnswerMessage] else map[]
  }
}
