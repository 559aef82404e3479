/** The communication and language needs page of the health needs task
    (server/form-pages/apply/risks-and-needs/health-needs/communicationAndLanguage.ts). */
module CommunicationAndLanguagePage {
  import opened JsValues

  const PageName := "communication-and-language"

  /** The three yes/no questions, each followed by the detail question it opens. */
  const CommunicationQuestion := "Do they have any additional communication needs?"
  const CommunicationDetailQuestion := "Please describe their communication needs."
  const InterpreterQuestion := "Do they need an interpreter?"
  const InterpreterDetailQuestion := "What language do they need an interpreter for?"
  const SupportQuestion := "Do they need any support to see, hear, speak, or understand?"
  const SupportDetailQuestion := "Please describe their support needs."

  datatype CommunicationAndLanguage = CommunicationAndLanguage(body: Record)

  function Previous(p: CommunicationAndLanguage): string
  {
    "mental-health"
  }

  function Next(p: CommunicationAndLanguage): string
  {
    "learning-difficulties"
  }

  /** The page sits between the mental health and learning difficulties pages. */
  lemma Navigation(p: CommunicationAndLanguage)
    ensures Previous(p) == "mental-health" && Next(p) == "learning-difficulties"
  {
  }

  /** No answer on this page is required. */
  function Errors(p: CommunicationAndLanguage): (e: map<string, string>)
    ensures e == map[]
  {
    map[]
  }

  /** Every question appears, answered or not: the yes/no answers through
      `sentenceCase`, the details verbatim. */
  function Response(p: CommunicationAndLanguage, sentenceCase: Value -> Value): (r: Record)
    ensures r.Keys == {CommunicationQuestion, CommunicationDetailQuestion, InterpreterQuestion,
                       InterpreterDetailQuestion, SupportQuestion, SupportDetailQuestion}
    ensures r[CommunicationQuestion] == sentenceCase(Get(p.body, "hasCommunicationNeeds"))
    ensures r[CommunicationDetailQuestion] == Get(p.body, "communicationDetail")
    ensures r[InterpreterQuestion] == sentenceCase(Get(p.body, "requiresInterpreter"))
    ensures r[InterpreterDetailQuestion] == Get(p.body, "interpretationDetail")
    ensures r[SupportQuestion] == sentenceCase(Get(p.body, "hasSupportNeeds"))
    ensures r[SupportDetailQuestion] == Get(p.body, "supportDetail")
  {
    QuestionsDistinct();
    map[
      CommunicationQuestion := sentenceCase(Get(p.body, "hasCommunicationNeeds")),
      CommunicationDetailQuestion := Get(p.body, "communicationDetail"),
      InterpreterQuestion := sentenceCase(Get(p.body, "requiresInterpreter")),
      InterpreterDetailQuestion := Get(p.body, "interpretationDetail"),
      SupportQuestion := sentenceCase(Get(p.body, "hasSupportNeeds")),
      SupportDetailQuestion := Get(p.body, "supportDetail")]
  }

  /** The six question texts are pairwise different, so no answer hides another. */
  lemma QuestionsDistinct()
    ensures |{CommunicationQuestion, CommunicationDetailQuestion, InterpreterQuestion,
              InterpreterDetailQuestion, SupportQuestion, SupportDetailQuestion}| == 6
  {
    assert |CommunicationQuestion| == 48 && |InterpreterQuestion| == 28 && |SupportQuestion| == 60;
    assert |CommunicationDetailQuestion| == 42 && |InterpreterDetailQuestion| == 46 && |SupportDetailQuestion| == 36;
  }

  /** An empty body still yields all six questions, with the details left undefined. */
  lemma EmptyBodyKeepsAllQuestions(sentenceCase: Value -> Value)
    ensures var r := Response(CommunicationAndLanguage(map[]), sentenceCase);
      |r| == 6 && r[CommunicationDetailQuestion] == Undefined && r[CommunicationQuestion] == sentenceCase(Undefined)
  {
    QuestionsDistinct();
  }
}
