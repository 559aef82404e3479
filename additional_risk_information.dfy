/** The additional risk information page of the risk of serious harm task
    (server/form-pages/apply/risks-and-needs/risk-of-serious-harm/additionalRiskInformation.ts). */
module AdditionalRiskInformationPage {
  import opened JsValues

  const PageName := "additional-risk-information"

  const HasInformationField := "hasAdditionalInformation"
  const DetailField := "additionalInformationDetail"

  const HasInformationMessage := "Select whether there is any additional risk information"
  const DetailMessage := "Enter additional information for risk to others"

  const DetailQuestion := "Additional information"

  /** `personName` is the person's name, or the placeholder used when it is unknown. */
  datatype AdditionalRiskInformation = AdditionalRiskInformation(body: Record, personName: string)

  /** The yes/no question, which names the person. */
  function HasInformationQuestion(p: AdditionalRiskInformation): string
  {
    "Is there any other risk information for " + p.personName + "?"
  }

  function Previous(p: AdditionalRiskInformation): string
  {
    "behaviour-notes"
  }

  /** The empty page name: the last page of its task. */
  function Next(p: AdditionalRiskInformation): string
  {
    ""
  }

  /** The page follows the behaviour notes page and ends its task. */
  lemma Navigation(p: AdditionalRiskInformation)
    ensures Previous(p) == "behaviour-notes" && Next(p) == ""
  {
  }

  /** The yes/no answer is required, and the detail is required only after 'yes'. */
  function Errors(p: AdditionalRiskInformation): (e: map<string, string>)
    ensures e.Keys <= {HasInformationField, DetailField}
    ensures HasInformationField in e <==> !Truthy(Get(p.body, HasInformationField))
    ensures DetailField in e <==> Get(p.body, HasInformationField) == Str("yes") && !Truthy(Get(p.body, DetailField))
    ensures HasInformationField in e ==> e[HasInformationField] == HasInformationMessage
    ensures DetailField in e ==> e[DetailField] == DetailMessage
    ensures !Truthy(Get(p.body, HasInformationField)) ==> e.Keys == {HasInformationField}
    ensures Get(p.body, HasInformationField) == Str("no") ==> e == map[]
  {
    var errors: map<string, string> :=
      if !Truthy(Get(p.body, HasInformationField)) then map[HasInformationField := HasInformationMessage] else map[];
    if Get(p.body, HasInformationField) == Str("yes") && !Truthy(Get(p.body, DetailField)) then
      errors[DetailField := DetailMessage]
    else errors
  }

  /** Both questions appear with the raw answers, neither translated nor pruned. */
  function Response(p: AdditionalRiskInformation): (r: Record)
    ensures r.Keys == {HasInformationQuestion(p), DetailQuestion} && |r| == 2
    ensures r[HasInformationQuestion(p)] == Get(p.body, HasInformationField)
    ensures r[DetailQuestion] == Get(p.body, DetailField)
  {
    assert HasInformationQuestion(p)[0] != DetailQuestion[0];
    map[HasInformationQuestion(p) := Get(p.body, HasInformationField), DetailQuestion := Get(p.body, DetailField)]
  }
}
