/** The OASys import entry page of the risk of serious harm task and its
    auto-routing (server/form-pages/apply/risks-and-needs/risk-of-serious-harm/custom-forms/oasysImport.ts). */
module OasysImportPage {
  import opened JsValues
  import opened Applications
  import SummaryPage

  const PageName := "oasys-import"
  const TaskName := "risk-of-serious-harm"

  /** The sentinel field stamped on every sub-record the import creates. */
  const ImportMarker := "dateOfOasysImport"

  const RiskToOthersKey := "risk-to-others"
  const RiskFactorsKey := "risk-factors"
  const ReducingRiskKey := "reducing-risk"

  /** The sub-records the import writes, which are also the ones the classification inspects. */
  const ImportedKeys: set<string> := {RiskToOthersKey, RiskFactorsKey, ReducingRiskKey}

  /** A constructed import page. `oasysStarted` and `oasysCompleted` stay Undefined
      (unset) without a record; `taskData` is None when no import data was built. */
  datatype OasysImport = OasysImport(
    body: Record,
    hasOasysRecord: bool,
    oasysStarted: Value,
    oasysCompleted: Value,
    taskData: Option<Record>)

  /** `oasys.dateX && isoDateToUIDate(oasys.dateX)`: a falsy date is kept as it is. */
  function DisplayDate(oasys: Value, field: string, formatDate: Value -> Value): Value
  {
    var date := Field(oasys, field);
    if Truthy(date) then formatDate(date) else date
  }

  /** `new OasysImport(body, application, oasys, taskData)`. */
  function NewOasysImport(body: Record, oasys: Value, taskData: Option<Record>, formatDate: Value -> Value): (p: OasysImport)
    ensures p.body == body && p.taskData == taskData
    ensures !Truthy(oasys) ==> !p.hasOasysRecord
    ensures oasys.Obj? ==> (p.hasOasysRecord <==> |oasys.fields| > 0)
    ensures !p.hasOasysRecord ==> p.oasysStarted == Undefined && p.oasysCompleted == Undefined
    ensures p.hasOasysRecord ==>
      && p.oasysStarted == DisplayDate(oasys, "dateStarted", formatDate)
      && p.oasysCompleted == DisplayDate(oasys, "dateCompleted", formatDate)
  {
    var hasRecord := Truthy(oasys) && KeyCount(oasys) > 0;
    if hasRecord then
      OasysImport(body, true, DisplayDate(oasys, "dateStarted", formatDate), DisplayDate(oasys, "dateCompleted", formatDate), taskData)
    else
      OasysImport(body, false, Undefined, Undefined, taskData)
  }

  function Previous(p: OasysImport): string
  {
    "taskList"
  }

  function Next(p: OasysImport): string
  {
    "summary"
  }

  /** The page is entered from the task list and continues with the summary page. */
  lemma Navigation(p: OasysImport)
    ensures Previous(p) == "taskList" && Next(p) == "summary"
  {
  }

  /** The import page never reports a validation error. */
  function Errors(p: OasysImport): (e: map<string, string>)
    ensures e == map[]
  {
    map[]
  }

  /** The import page contributes nothing to the check-your-answers projection. */
  function Response(p: OasysImport): (r: Record)
    ensures r == map[]
  {
    map[]
  }

  // ---------------------------------------------------------------------------
  // getTaskData: folding the OASys questions into the three sub-records

  /** The sub-record a question number is routed to. */
  function Target(number: Value): Option<string>
  {
    if number == Str("R10.1") || number == Str("R10.2") then Some(RiskToOthersKey)
    else if number == Str("R10.3") || number == Str("R10.4") then Some(RiskFactorsKey)
    else if number == Str("R10.5") then Some(ReducingRiskKey)
    else None
  }

  /** The field of the sub-record a routed question number fills. */
  function AnswerField(number: Value): string
  {
    if number == Str("R10.1") then "whoIsAtRisk"
    else if number == Str("R10.2") then "natureOfRisk"
    else if number == Str("R10.3") then "whenIsRiskLikelyToBeGreatest"
    else if number == Str("R10.4") then "circumstancesLikelyToIncreaseRisk"
    else "factorsLikelyToReduceRisk"
  }

  /** A question record can be read; reading a property of null or undefined throws. */
  predicate Readable(question: Value)
  {
    !(question.Undefined? || question.Null?)
  }

  /** One step of the `forEach`: R10.1 to R10.4 merge into the existing
      sub-record, R10.5 replaces `reducing-risk` outright, other numbers are ignored. */
  function RouteQuestion(rosh: Record, question: Value, today: Value): (r: Result<Record, Thrown>)
    ensures !Readable(question) ==> r == Err(TypeError)
    ensures Readable(question) && Target(Field(question, "questionNumber")).None? ==> r == Ok(rosh)
    ensures Readable(question) && Target(Field(question, "questionNumber")).Some? ==>
      var number := Field(question, "questionNumber");
      var key := Target(number).value;
      && r.Ok?
      && r.value.Keys == rosh.Keys + {key}
      && (forall k :: k in rosh && k != key ==> r.value[k] == rosh[k])
      && r.value[key].Obj?
      && Get(r.value[key].fields, AnswerField(number)) == Field(question, "answer")
      && Get(r.value[key].fields, ImportMarker) == today
      && (key != ReducingRiskKey ==>
            r.value[key].fields.Keys == Spread(Get(rosh, key)).Keys + {AnswerField(number), ImportMarker})
      && (key != ReducingRiskKey ==>
            forall f :: f in Spread(Get(rosh, key)) && f != AnswerField(number) && f != ImportMarker ==>
              f in r.value[key].fields && r.value[key].fields[f] == Spread(Get(rosh, key))[f])
      && (key == ReducingRiskKey ==> r.value[key].fields.Keys == {AnswerField(number), ImportMarker})
  {
    if !Readable(question) then Err(TypeError)
    else
      var number := Field(question, "questionNumber");
      var answer := Field(question, "answer");
      match Target(number)
      case None => Ok(rosh)
      case Some(key) =>
        if key == ReducingRiskKey then
          Ok(rosh[key := Obj(map[AnswerField(number) := answer, ImportMarker := today])])
        else
          Ok(rosh[key := Obj(Spread(Get(rosh, key))[AnswerField(number) := answer][ImportMarker := today])])
  }

  /** The `risk-of-serious-harm` sub-records after the `forEach` has run over `questions`. */
  function TaskDataOf(questions: seq<Value>, today: Value): Result<Record, Thrown>
    decreases |questions|
  {
    if |questions| == 0 then Ok(map[])
    else
      match TaskDataOf(questions[..|questions| - 1], today)
      case Err(e) => Err(e)
      case Ok(rosh) => RouteQuestion(rosh, questions[|questions| - 1], today)
  }

  /** `getTaskData(oasys)`: reading `oasys.rosh` and iterating it throws unless it is a list. */
  function GetTaskDataSpec(oasys: Value, today: Value): Result<Record, Thrown>
  {
    var rosh := Field(oasys, "rosh");
    if !rosh.Arr? then Err(TypeError)
    else
      match TaskDataOf(rosh.items, today)
      case Err(e) => Err(e)
      case Ok(roshData) => Ok(map[TaskName := Obj(roshData)])
  }

  /** Once a prefix has thrown, the whole `forEach` has thrown the same error. */
  lemma {:induction false} ThrowPersists(questions: seq<Value>, i: nat, today: Value)
    requires i <= |questions|
    requires TaskDataOf(questions[..i], today).Err?
    ensures TaskDataOf(questions, today) == TaskDataOf(questions[..i], today)
    decreases |questions| - i
  {
    if i < |questions| {
      assert questions[..i + 1][..i] == questions[..i];
      ThrowPersists(questions, i + 1, today);
    } else {
      assert questions[..i] == questions;
    }
  }

  /** `OasysImport.getTaskData`: builds the sub-records in a local object, one question at a time. */
  method GetTaskData(oasys: Value, today: Value) returns (r: Result<Record, Thrown>)
    ensures r == GetTaskDataSpec(oasys, today)
  {
    var rosh := Field(oasys, "rosh");
    if !rosh.Arr? {
      return Err(TypeError);
    }
    var questions := rosh.items;
    var roshData: Record := map[];
    var i := 0;
    while i < |questions|
      invariant 0 <= i <= |questions|
      invariant TaskDataOf(questions[..i], today) == Ok(roshData)
    {
      var question := questions[i];
      assert questions[..i + 1][..i] == questions[..i];
      if question.Undefined? || question.Null? {
        ThrowPersists(questions, i + 1, today);
        return Err(TypeError);
      }
      var number := Field(question, "questionNumber");
      var answer := Field(question, "answer");
      if number == Str("R10.1") {
        roshData := roshData[RiskToOthersKey := Obj(Spread(Get(roshData, RiskToOthersKey))["whoIsAtRisk" := answer][ImportMarker := today])];
      } else if number == Str("R10.2") {
        roshData := roshData[RiskToOthersKey := Obj(Spread(Get(roshData, RiskToOthersKey))["natureOfRisk" := answer][ImportMarker := today])];
      } else if number == Str("R10.3") {
        roshData := roshData[RiskFactorsKey := Obj(Spread(Get(roshData, RiskFactorsKey))["whenIsRiskLikelyToBeGreatest" := answer][ImportMarker := today])];
      } else if number == Str("R10.4") {
        roshData := roshData[RiskFactorsKey := Obj(Spread(Get(roshData, RiskFactorsKey))["circumstancesLikelyToIncreaseRisk" := answer][ImportMarker := today])];
      } else if number == Str("R10.5") {
        roshData := roshData[ReducingRiskKey := Obj(map["factorsLikelyToReduceRisk" := answer, ImportMarker := today])];
      }
      i := i + 1;
    }
    assert questions[..i] == questions;
    return Ok(map[TaskName := Obj(roshData)]);
  }

  // ---------------------------------------------------------------------------
  // isRoshApplicationDataImportedFromOASys

  /** A sub-record holding the import marker. */
  predicate HasMarker(sub: Value)
  {
    sub.Obj? && ImportMarker in sub.fields
  }

  /** `sub && 'dateOfOasysImport' in sub`: a falsy entry is skipped, and the `in`
      operator throws on a truthy value that is not an object (a string). */
  function MarkerTest(sub: Value): (r: Result<bool, Thrown>)
    ensures sub.Str? && Truthy(sub) <==> r == Err(TypeError)
    ensures !sub.Str? ==> r == Ok(HasMarker(sub))
  {
    if !Truthy(sub) then Ok(false)
    else if sub.Str? then Err(TypeError)
    else Ok(HasMarker(sub))
  }

  /** The stored entries of the three imported sub-records, in the order tested. */
  function ImportedEntries(rosh: TaskData): seq<Value>
  {
    [Get(rosh, RiskToOthersKey), Get(rosh, RiskFactorsKey), Get(rosh, ReducingRiskKey)]
  }

  /** Whether some imported sub-record holds the marker. */
  predicate IsImported(rosh: TaskData)
  {
    exists i :: 0 <= i < 3 && HasMarker(ImportedEntries(rosh)[i])
  }

  /** `isRoshApplicationDataImportedFromOASys`: the three tests joined by a
      short-circuiting `||`, so a test that throws aborts only when the ones before it failed. */
  function IsImportedFromOasys(rosh: TaskData): (r: Result<bool, Thrown>)
    ensures r == Ok(true) <==>
      exists i :: 0 <= i < 3 && HasMarker(ImportedEntries(rosh)[i]) &&
        forall j :: 0 <= j < i ==> MarkerTest(ImportedEntries(rosh)[j]) == Ok(false)
    ensures r.Err? ==> r == Err(TypeError)
    ensures (forall i :: 0 <= i < 3 ==> !(ImportedEntries(rosh)[i].Str? && Truthy(ImportedEntries(rosh)[i]))) ==>
      r == Ok(IsImported(rosh))
  {
    var e := ImportedEntries(rosh);
    match MarkerTest(e[0])
    case Err(x) => Err(x)
    case Ok(true) => Ok(true)
    case Ok(false) =>
      match MarkerTest(e[1])
      case Err(x) => Err(x)
      case Ok(true) => Ok(true)
      case Ok(false) => MarkerTest(e[2])
  }

  /** Some question in the list is one of R10.1 to R10.5. */
  predicate AnyRouted(questions: seq<Value>)
  {
    exists i :: 0 <= i < |questions| && Readable(questions[i]) && Target(Field(questions[i], "questionNumber")).Some?
  }

  /** The fold only ever creates the three known sub-records, each stamped with the
      marker, and creates at least one exactly when a question was routed. */
  lemma {:induction false} TaskDataShape(questions: seq<Value>, today: Value)
    requires TaskDataOf(questions, today).Ok?
    ensures var rosh := TaskDataOf(questions, today).value;
      && rosh.Keys <= ImportedKeys
      && (forall k :: k in rosh ==> HasMarker(rosh[k]))
      && (rosh != map[] <==> AnyRouted(questions))
    decreases |questions|
  {
    if |questions| > 0 {
      var init := questions[..|questions| - 1];
      var last := questions[|questions| - 1];
      TaskDataShape(init, today);
      var before := TaskDataOf(init, today).value;
      var after := TaskDataOf(questions, today).value;
      assert after == RouteQuestion(before, last, today).value;
      if AnyRouted(init) {
        var i :| 0 <= i < |init| && Readable(init[i]) && Target(Field(init[i], "questionNumber")).Some?;
        assert questions[i] == init[i];
      }
      if AnyRouted(questions) && Target(Field(last, "questionNumber")).None? {
        var i :| 0 <= i < |questions| && Readable(questions[i]) && Target(Field(questions[i], "questionNumber")).Some?;
        assert i < |questions| - 1 && init[i] == questions[i];
      }
      if Target(Field(last, "questionNumber")).Some? {
        assert Readable(last);
        assert AnyRouted(questions) by {
          assert Readable(questions[|questions| - 1]) && Target(Field(questions[|questions| - 1], "questionNumber")).Some?;
        }
      }
    }
  }

  /** Data produced by the import is recognised as imported exactly when one of
      R10.1 to R10.5 was among the OASys questions. */
  lemma ImportedDataIsRecognised(questions: seq<Value>, today: Value)
    requires TaskDataOf(questions, today).Ok?
    ensures IsImportedFromOasys(TaskDataOf(questions, today).value) == Ok(AnyRouted(questions))
  {
    TaskDataShape(questions, today);
    var rosh := TaskDataOf(questions, today).value;
    var e := ImportedEntries(rosh);
    assert forall i :: 0 <= i < 3 ==> e[i].Undefined? || HasMarker(e[i]);
    if rosh != map[] {
      var k :| k in rosh;
      assert k in ImportedKeys;
      assert HasMarker(rosh[k]);
      if k == RiskToOthersKey { assert HasMarker(e[0]); }
      else if k == RiskFactorsKey { assert HasMarker(e[1]); }
      else { assert HasMarker(e[2]); }
    }
  }

  // ---------------------------------------------------------------------------
  // initialize: auto-routing on the shape of the stored data

  /** How the OASys fetch settles. */
  datatype Fetch = Resolved(record: Value) | Rejected(error: Thrown)

  /** The page instance `initialize` hands back. */
  datatype RoutedPage =
    | ToImport(page: OasysImport)
    | ToSummary(summary: SummaryPage.Summary)
    | ToRiskToOthers(body: Record)

  /** `OasysImport.initialize`. `fetched` tells whether the OASys record was requested.
      `commentsQuestion` and `formatDate` stand for the question table and date formatting
      the Summary page and this page use. */
  method Initialize(body: Record, app: Application, fetch: Fetch, today: Value,
                    commentsQuestion: string, formatDate: Value -> Value)
    returns (r: Result<RoutedPage, Thrown>, fetched: bool)
    ensures app.data.None? ==> r == Err(TypeError) && !fetched
    ensures app.data.Some? ==> (fetched <==> TaskName !in app.data.value)
    ensures fetched && fetch == Rejected(HttpError(404)) ==>
      r == Ok(ToImport(NewOasysImport(body, Null, None, formatDate))) && !r.value.page.hasOasysRecord
    ensures fetched && fetch.Rejected? && fetch.error != HttpError(404) ==> r == Err(fetch.error)
    ensures fetched && fetch.Resolved? ==>
      match GetTaskDataSpec(fetch.record, today)
      case Err(e) => r == Err(e)
      case Ok(taskData) => r == Ok(ToImport(NewOasysImport(body, fetch.record, Some(taskData), formatDate)))
    ensures app.data.Some? && TaskName in app.data.value ==>
      var rosh := app.data.value[TaskName];
      match IsImportedFromOasys(rosh)
      case Err(e) => r == Err(e)
      case Ok(true) => r == Ok(ToSummary(SummaryPage.NewSummary(BodyOf(Get(rosh, SummaryPage.PageName)), commentsQuestion, formatDate)))
      case Ok(false) => r == Ok(ToRiskToOthers(BodyOf(Get(rosh, RiskToOthersKey))))
  {
    if app.data.None? {
      return Err(TypeError), false;
    }
    var data := app.data.value;
    if TaskName !in data {
      var oasys: Value := Null;
      var taskData: Option<Record> := None;
      match fetch {
        case Rejected(e) =>
          if e != HttpError(404) {
            return Err(e), true;
          }
        case Resolved(record) =>
          var built := GetTaskData(record, today);
          if built.Err? {
            // a TypeError has no 404 status, so the catch rethrows it
            return Err(built.error), true;
          }
          oasys := record;
          taskData := Some(built.value);
      }
      return Ok(ToImport(NewOasysImport(body, oasys, taskData, formatDate))), true;
    }
    var rosh := data[TaskName];
    var imported := IsImportedFromOasys(rosh);
    if imported.Err? {
      return Err(imported.error), false;
    }
    if imported.value {
      return Ok(ToSummary(SummaryPage.NewSummary(BodyOf(Get(rosh, SummaryPage.PageName)), commentsQuestion, formatDate))), false;
    }
    return Ok(ToRiskToOthers(BodyOf(Get(rosh, RiskToOthersKey)))), false;
  }

  /** An application whose risk data came from an import is routed straight to the
      summary page, without a second fetch. */
  method ImportedApplicationSkipsToSummary(app: Application, questions: seq<Value>, today: Value,
                                           fetch: Fetch, commentsQuestion: string, formatDate: Value -> Value)
    returns (r: Result<RoutedPage, Thrown>, fetched: bool)
    requires app.data.Some?
    requires TaskDataOf(questions, today).Ok? && AnyRouted(questions)
    ensures r.Ok? && r.value.ToSummary? && !fetched
  {
    var rosh := TaskDataOf(questions, today).value;
    ImportedDataIsRecognised(questions, today);
    var stored := app.(data := Some(app.data.value[TaskName := rosh]));
    r, fetched := Initialize(map[], stored, fetch, today, commentsQuestion, formatDate);
  }
}
