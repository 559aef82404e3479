# Application wizard pages of the community accommodation intake service

A Dafny model of the form-wizard page layer of the short-term accommodation
application service (hmpps-community-accommodation-2-ui). An application is filled
in task by task and page by page. Each page is built from a partial answer bag
(its *body*). It names the pages before and after it, reports field-keyed
validation errors, and projects its answers as question text → answer for the
check-your-answers screens.

The model covers:

- six pages: the risk of serious harm summary, the OASys import entry page,
  communication and language, additional risk information, funding source and
  previous convictions;
- the OASys import's auto-routing. `initialize` fetches the OASys record on a first
  visit, treats a 404 as "no record", and otherwise skips to the summary or the
  risk-to-others page depending on whether the stored data carries the import marker;
- the fold of OASys questions into three sub-records;
- assembly and validation of dates from the `-day`/`-month`/`-year`/`-time` parts of
  a date input, which writes into the caller's object in place;
- the application service's save/load cycle: body resolution, the validation gate,
  and a read-modify-write of one page into the application document;
- the answer formatter and the change link;
- the eligibility predicate and the application timeline;
- the `@Task`/`@Section` registrations.

JavaScript values are modelled by `JsValues.Value`: undefined, null, strings,
arrays and plain objects. Truthiness, property reads, `String(v)`, `join` and
`split` are written out. Exceptions are a `Thrown` value in a `Result`.

These are imperative in the source and in the model:

- `OasysImportPage.GetTaskData` is a loop proved against the fold `TaskDataOf`.
- `FundingSourcePage.DeleteFalsy` is the key-deleting loop, proved against `Pruned`.
- `DateUtils.DateInputs` is the object whose field map `dateAndTimeInputsToIsoString` updates.
- `ApplicationServiceModel.ApplicationService` is a class holding the application store and the log of `update` calls.

Helpers whose code is not part of this model become parameters:

- `sentenceCase`;
- `isoDateToUIDate` and the date-time display format;
- date parsing (its outcome) and the instant a timestamp denotes;
- `formatLines` and `escape`;
- `convertKeyValuePairToRadioItems`;
- the question table.

The `new Date()` stamp of the import is the parameter `today`. The OASys fetch
is the parameter `fetch`, which either resolves to a record or rejects with a
`Thrown`.

The application service, the answer formatter and the application utilities
are known only through their tests. Their models state the behaviour those
tests fix, in the lines cited below.

## Model

| member | source | states |
|---|---|---|
| SummaryPage.NewSummary | server/form-pages/apply/risks-and-needs/risk-of-serious-harm/summary.ts:37-55 | `risks` is set exactly when `status` is 'retrieved'; it then copies every body field and adds `lastUpdated`, the formatted `value.lastUpdated` when that is truthy and null otherwise |
| SummaryPage.Navigation | server/form-pages/apply/risks-and-needs/risk-of-serious-harm/summary.ts:57-63 | previous is 'taskList', next is 'risk-to-others' |
| SummaryPage.Errors | server/form-pages/apply/risks-and-needs/risk-of-serious-harm/summary.ts:65-69 | the error map is always empty |
| SummaryPage.Response | server/form-pages/apply/risks-and-needs/risk-of-serious-harm/summary.ts:71-84 | the five rating keys are always present, each holding its rating or 'Unknown'; the comments question appears exactly when comments are non-empty, holding them; no other key |
| OasysImportPage.NewOasysImport | server/form-pages/apply/risks-and-needs/risk-of-serious-harm/custom-forms/oasysImport.ts:57-71 | `hasOasysRecord` is false for a falsy record and, for an object, true exactly when it has a key; the started/completed dates are set (formatted when truthy) only when there is a record |
| OasysImportPage.Navigation | server/form-pages/apply/risks-and-needs/risk-of-serious-harm/custom-forms/oasysImport.ts:162-168 | previous is 'taskList', next is 'summary' |
| OasysImportPage.Errors | server/form-pages/apply/risks-and-needs/risk-of-serious-harm/custom-forms/oasysImport.ts:170-174 | always empty |
| OasysImportPage.Response | server/form-pages/apply/risks-and-needs/risk-of-serious-harm/custom-forms/oasysImport.ts:176-180 | always empty |
| OasysImportPage.RouteQuestion | server/form-pages/apply/risks-and-needs/risk-of-serious-harm/custom-forms/oasysImport.ts:119-156 | reading a null/undefined question throws; other numbers leave the data unchanged; R10.1–R10.4 set their field in the routed sub-record and keep its other fields, whose keys become exactly the old keys plus the answer field and the marker; R10.5 replaces `reducing-risk` with just its field; every write stamps the marker; other sub-records are untouched |
| OasysImportPage.GetTaskData | server/form-pages/apply/risks-and-needs/risk-of-serious-harm/custom-forms/oasysImport.ts:114-160 | the loop over `rosh` yields the fold of the question steps, wrapped under 'risk-of-serious-harm'; a `rosh` that is not a list throws |
| OasysImportPage.ThrowPersists | server/form-pages/apply/risks-and-needs/risk-of-serious-harm/custom-forms/oasysImport.ts:118 | once a question throws, the whole `forEach` throws that error |
| OasysImportPage.TaskDataShape | server/form-pages/apply/risks-and-needs/risk-of-serious-harm/custom-forms/oasysImport.ts:120-153 | the fold creates only the three sub-records, each carrying the marker, and creates one exactly when some question is R10.1–R10.5 |
| OasysImportPage.MarkerTest | server/form-pages/apply/risks-and-needs/risk-of-serious-harm/custom-forms/oasysImport.ts:105-107 | one `sub && 'dateOfOasysImport' in sub` test: throws exactly on a non-empty string, otherwise is whether an object holds the marker |
| OasysImportPage.IsImportedFromOasys | server/form-pages/apply/risks-and-needs/risk-of-serious-harm/custom-forms/oasysImport.ts:102-112 | true exactly when some sub-record holds the marker and the tests before it were false; only a TypeError can escape; without string entries it is the marker test |
| OasysImportPage.ImportedDataIsRecognised | server/form-pages/apply/risks-and-needs/risk-of-serious-harm/custom-forms/oasysImport.ts:102-157 | data built by the import is classified as imported exactly when an R10.x question was among the OASys questions |
| OasysImportPage.Initialize | server/form-pages/apply/risks-and-needs/risk-of-serious-harm/custom-forms/oasysImport.ts:73-100 | null data throws; the record is fetched exactly when no risk data is stored; a 404 gives an import page without record, other rejections and task-data errors are rethrown; stored data goes to the summary when classified imported, else to risk-to-others, each with the stored body or {} |
| OasysImportPage.ImportedApplicationSkipsToSummary | server/form-pages/apply/risks-and-needs/risk-of-serious-harm/custom-forms/oasysImport.ts:82-98 | after an import with an R10.x answer, the next `initialize` returns the summary page without fetching |
| CommunicationAndLanguagePage.Navigation | server/form-pages/apply/risks-and-needs/health-needs/communicationAndLanguage.ts:60-66 | previous is 'mental-health', next is 'learning-difficulties' |
| CommunicationAndLanguagePage.Errors | server/form-pages/apply/risks-and-needs/health-needs/communicationAndLanguage.ts:68-72 | always empty |
| CommunicationAndLanguagePage.Response | server/form-pages/apply/risks-and-needs/health-needs/communicationAndLanguage.ts:74-87 | keys are exactly the six question texts; yes/no answers through `sentenceCase`, details verbatim |
| CommunicationAndLanguagePage.QuestionsDistinct | server/form-pages/apply/risks-and-needs/health-needs/communicationAndLanguage.ts:30-49 | the six question texts are pairwise different |
| CommunicationAndLanguagePage.EmptyBodyKeepsAllQuestions | server/form-pages/apply/risks-and-needs/health-needs/communicationAndLanguage.ts:74-87 | an empty body still gives six entries, nothing pruned |
| AdditionalRiskInformationPage.Navigation | server/form-pages/apply/risks-and-needs/risk-of-serious-harm/additionalRiskInformation.ts:40-46 | previous is 'behaviour-notes', next is '' (end of task) |
| AdditionalRiskInformationPage.Errors | server/form-pages/apply/risks-and-needs/risk-of-serious-harm/additionalRiskInformation.ts:48-59 | an error on the yes/no field exactly when it is falsy; on the detail exactly when the answer is 'yes' and the detail falsy; no other keys; a missing answer gives only the first error, 'no' gives none |
| AdditionalRiskInformationPage.Response | server/form-pages/apply/risks-and-needs/risk-of-serious-harm/additionalRiskInformation.ts:61-68 | exactly two keys, the raw answers |
| FundingSourcePage.LabelIn | server/form-pages/apply/area-and-funding/funding-information/fundingInformation.ts:7-10 | table lookup: undefined exactly when no entry has the key, else the first entry's label |
| FundingSourcePage.Label | server/form-pages/apply/area-and-funding/funding-information/fundingInformation.ts:56-59 | the label of the code converted to a property key, undefined for an unknown code |
| FundingSourcePage.LabelsAreTruthy | server/form-pages/apply/area-and-funding/funding-information/fundingInformation.ts:7-10 | every known code has a non-empty label |
| FundingSourcePage.Navigation | server/form-pages/apply/area-and-funding/funding-information/fundingInformation.ts:40-46 | previous is 'taskList', next is '' |
| FundingSourcePage.Errors | server/form-pages/apply/area-and-funding/funding-information/fundingInformation.ts:48-54 | a `fundingSource` error exactly when the answer is falsy, and no other key |
| FundingSourcePage.Pruned | server/form-pages/apply/area-and-funding/funding-information/fundingInformation.ts:61-65 | keeps exactly the truthy entries, values unchanged |
| FundingSourcePage.DeleteFalsy | server/form-pages/apply/area-and-funding/funding-information/fundingInformation.ts:61-65 | the deleting loop leaves the pruned response |
| FundingSourcePage.Response | server/form-pages/apply/area-and-funding/funding-information/fundingInformation.ts:56-68 | the question answered with the code's label, or {} for a missing or unknown code |
| FundingSourcePage.Items | server/form-pages/apply/area-and-funding/funding-information/fundingInformation.ts:70-78 | same count and order as the built radio items; only the 'benefits' item gains the benefits hint, others unchanged |
| AnyPreviousConvictionsPage.Navigation | server/form-pages/apply/offence-and-licence-information/offending-history/anyPreviousConvictions.ts:37-43 | previous is 'taskList', next is '' |
| AnyPreviousConvictionsPage.Errors | server/form-pages/apply/offence-and-licence-information/offending-history/anyPreviousConvictions.ts:45-51 | an error exactly when the answer is missing or empty, and no other key |
| DateUtils.PadTwo | server/utils/dateUtils.ts:80-81 | the last two characters of '0' followed by the part: two characters for a non-empty part, just '0' for an empty one |
| DateUtils.PadTwoOneChar | server/utils/dateUtils.ts:80-81 | a one-character part gains a leading zero |
| DateUtils.PadTwoTwoChars | server/utils/dateUtils.ts:80-81 | a two-character part is kept |
| DateUtils.PadTwoMissing | server/utils/dateUtils.ts:80-81 | a missing part pads to "ed" |
| DateUtils.IsoValue | server/utils/dateUtils.ts:79-97 | undefined exactly when the year is falsy; for any present year, `year-MM-DD` from the padded parts, followed by `T{time}:00.000Z` exactly when a time is present |
| DateUtils.MissingDayAndMonthStillAssemble | server/utils/dateUtils.ts:80-93 | with only a year, the stored value is `year-ed-ed`: the padded parts never fail the guard |
| DateUtils.DateAndTimeTextFields | server/utils/dateUtils.ts:86-90 | the date parts keep their offsets when the time suffix is appended, and the time sits between 'T' and ':00.000Z' |
| DateUtils.IsoValueFields | server/utils/dateUtils.ts:86-91 | for any present year, of any length, the year, padded month, padded day and time are read back at offsets fixed by the parts' lengths |
| DateUtils.DateAndTimeInputsToIsoString | server/utils/dateUtils.ts:79-97 | writes the assembled value at `key` in the caller's object, changes no other key, and returns that same object |
| DateUtils.ValidDates | server/utils/dateUtils.ts:126-149 | false for a present year of the wrong length and for the two caught parse failures; true otherwise, including other thrown errors |
| DateUtils.DateAndTimeInputsAreValidDates | server/utils/dateUtils.ts:126-149 | null gives false; otherwise the verdict above, and the object is written exactly when the year check passed |
| ApplicationServiceModel.MergePage | server/services/applicationService.test.ts:124-138 | the body is written at `data[task][page]`, other pages of the task and other tasks are kept, a null document starts empty |
| ApplicationServiceModel.MergePageIdempotent | server/services/applicationService.test.ts:124-138 | saving the same page twice equals saving it once |
| ApplicationServiceModel.MergePagesCommute | server/services/applicationService.test.ts:124-138 | saves of two different pages commute |
| ApplicationServiceModel.ResolveBody | server/services/applicationService.test.ts:196-222 | a non-empty userInput wins, then a non-empty request body, then the stored answers |
| ApplicationServiceModel.LoadAfterMerge | server/services/applicationService.test.ts:207-222 | after a save, loading the page without a body gives the saved body; other pages read as before |
| ApplicationServiceModel.ApplicationService.Save | server/services/applicationService.test.ts:84-155 | errors reject with exactly that map and change nothing; otherwise the merged document is stored and one update with it is issued, also for a null document |
| ApplicationServiceModel.ApplicationService.SaveData | server/services/applicationService.test.ts:259-283 | the document is replaced wholesale and sent in one update |
| ApplicationServiceModel.ApplicationService.InitializePage | server/services/applicationService.test.ts:158-241 | the page gets the resolved body and the fetched application, which is the one with the requested id; through `initialize` with the token when the class has one, else the constructor with the session's previous page |
| ApplicationServiceModel.SaveThenLoad | server/services/applicationService.test.ts:207-222 | a saved page is loaded back with the saved body |
| CheckYourAnswers.ArrayAnswersAsString | server/utils/checkYourAnswersUtils.test.ts:122-134 | labels of the codes joined by ',' in order; '' for none |
| CheckYourAnswers.ArrayAnswersSplitBack | server/utils/checkYourAnswersUtils.test.ts:122-134 | when labels hold no comma, splitting on ',' gives back one label per code, in order |
| CheckYourAnswers.GetAnswer | server/utils/checkYourAnswersUtils.test.ts:39-120 | key '0' returns the stored page record verbatim; a list answer goes to the joined labels; a scalar becomes its label; reading through missing data throws |
| CheckYourAnswers.ChangeHref | server/utils/checkYourAnswersUtils.test.ts:146 | the link is the segments '', 'applications', id, 'tasks', task, 'pages', page joined by '/' |
| CheckYourAnswers.ChangeHrefIdentifiesThePage | server/utils/checkYourAnswersUtils.test.ts:136-164 | for slash-free names, the link splits back into id, task and page |
| CheckYourAnswers.SummaryListItemForQuestion | server/utils/checkYourAnswersUtils.test.ts:136-164 | key text is the question, value is the formatted answer, and the one 'Change' action links to the page |
| CheckYourAnswers.EmbeddedRows | server/utils/checkYourAnswersUtils.test.ts:166-218 | one list per record, one row per entry, key and value escaped |
| CheckYourAnswers.EmbeddedSummaryListItem | server/utils/checkYourAnswersUtils.test.ts:166-218 | '' for no records; otherwise opens and closes with an embedded summary list |
| CheckYourAnswers.ListsHtmlFrame | server/utils/checkYourAnswersUtils.test.ts:178-217 | a non-empty rendering starts with a list opening and ends with a list closing |
| CheckYourAnswers.EmbeddedSummaryListsConcatenate | server/utils/checkYourAnswersUtils.test.ts:166-218 | rendering two groups of records gives their renderings side by side |
| ApplicationUtils.EligibilityQuestionIsAnswered | server/utils/applications/utils.test.ts:14-73 | true exactly when `isEligible` is 'yes' or 'no'; false for null data and for {} |
| ApplicationUtils.InsertKeepsNewestFirst | server/utils/applications/utils.test.ts:124-172 | inserting into a newest-first list keeps it newest first |
| ApplicationUtils.SortNewestFirst | server/utils/applications/utils.test.ts:124-172 | the result is newest first and a permutation of the events |
| ApplicationUtils.TimelineEvents | server/utils/applications/utils.test.ts:75-200 | one event per status update plus the submission event, as a multiset; newest first; exactly the submission event when there are no updates |
| ApplicationUtils.EveryUpdateIsOnTheTimeline | server/utils/applications/utils.test.ts:76-122 | every status update's event is on the timeline |
| Registry.IndexOf | server/form-pages/apply/risks-and-needs/risk-of-serious-harm/index.ts:13-21 | the first position of a page in a chain, none exactly when absent |
| Registry.Successor | server/form-pages/apply/risks-and-needs/risk-of-serious-harm/index.ts:13-21 | the page after a page in a chain |
| Registry.RiskOfSeriousHarmChain | server/form-pages/apply/risks-and-needs/risk-of-serious-harm/index.ts:10-22 | the slug is the import's task name; seven distinct pages starting with the import page |
| Registry.AreaInformationChain | server/form-pages/apply/area-and-funding/area-information/index.ts:8-12 | three distinct pages starting with the first preferred area |
| Registry.EqualityAndDiversityMonitoringChain | server/form-pages/apply/about-the-person/equality-diversity-monitoring/index.ts:7-11 | two distinct pages starting with will-answer |
| Registry.AreaAndFundingRegistration | server/form-pages/apply/area-and-funding/index.ts:6-14 | one funding page; the 'Area and funding' section lists just this task |
| Registry.RoutingTargetsFollowTheEntryPage | server/form-pages/apply/risks-and-needs/risk-of-serious-harm/index.ts:14-16 | import, summary and risk-to-others sit at positions 0, 1 and 2 |
| Registry.NextFollowsTheChain | server/form-pages/apply/risks-and-needs/risk-of-serious-harm/index.ts:14-16 | the import's and the summary's `next()` name their successors in the chain |
| Registry.RoutedClass | server/form-pages/apply/risks-and-needs/risk-of-serious-harm/custom-forms/oasysImport.ts:94-99 | every page `initialize` returns is in the chain; the skip-ahead pages come after the entry page |

## Left out

- Page titles, document titles, person names and banner texts: display strings, apart from the question texts the responses use.
- The summary page's `importDate` (server/form-pages/apply/risks-and-needs/risk-of-serious-harm/summary.ts:35): `getOasysImportDateFromApplication` is not part of this model, so the page does not hold the field.
- Responses and error maps are Dafny maps, so the key order of the source's object literals is not modelled.
- `nameOrPlaceholderCopy` and `getQuestions` are not part of this model. The person name and the summary's comments question text are parameters.
- `sentenceCase`, `isoDateToUIDate`, `formatLines`, `escape`, `convertKeyValuePairToRadioItems` and date parsing are not part of this model. They are parameters, so the `'yes'` → `'Yes'` rendering follows from the helper and is not proved.
- OasysImportPage.Initialize: the JSON text of `taskData` is not modelled. The page holds the structured value.
- OasysImportPage.Initialize: the promise machinery of the fetch is not modelled. The fetch outcome is a parameter.
- OasysImportPage.Initialize: a stored risk-of-serious-harm entry is always an object. A stored `summary` or `risk-to-others` entry that is not an object is read as {}.
- OasysImportPage.Initialize: `today` stands for the `new Date()` stamp.
- AnyPreviousConvictions `items()`: it only forwards the question table's answers to the unmodelled radio helper.
- `dateAndTimeInputsToUiDate` and `differenceInDays` (server/utils/dateUtils.ts:106-123): formatting wrappers over date-fns.
- DateUtils.ValidDates: date-fns parsing is an abstract outcome. Which strings parse is not modelled.
- FundingSourcePage.Label: property lookups of inherited names (such as 'toString') are not modelled. An unknown code reads as undefined.
- ApplicationServiceModel.ApplicationService.Save: `onSave` hooks, `getApplicationUpdateData`, client construction and tokens are not modelled. The update call records the id and the document.
- ApplicationServiceModel.ApplicationService.Save: an unknown id fails with a 404, standing in for the store's error.
- ApplicationServiceModel.ResolveBody: the precedence follows the service test, where a supplied userInput replaces the request body (server/services/applicationService.test.ts:196-205).
- CheckYourAnswers.GetAnswer: the behaviour outside the tested cases is chosen, not taken from code. A scalar code without a label keeps its stored value; a listed code without a label renders as ''; a missing question entry throws.
- CheckYourAnswers.EmbeddedSummaryListItem: whitespace between tags is left out, as the test strips it. Record entries are given in insertion order.
- ApplicationUtils.SortNewestFirst: stability of equal timestamps is not stated. The instant of a timestamp is a parameter.
- createApplication, findApplication, getAllForLoggedInUser and submit: thin pass-throughs to the REST client.
- The task completion evaluator and the pages registered but not shown: their code is not part of this model.
- Concurrent sessions writing the same application: a single sequential session is modelled.
