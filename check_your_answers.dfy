/** The answer formatter of the check-your-answers screens: reading one stored
    answer back as display text, the change link of a summary row, and the
    embedded summary lists rendered for repeating records (the contract
    server/utils/checkYourAnswersUtils.test.ts sets out). */
module CheckYourAnswers {
  import opened JsValues
  import opened Applications

  /** One entry of the question table: the question text and the labels of its answer codes. */
  datatype QuestionText = QuestionText(question: string, answers: map<string, string>)

  /** The question table for one person, by task, page and question key. */
  type QuestionTable = map<(string, string, string), QuestionText>

  /** The whole-record addressing mode of `getAnswer`. */
  const WholeRecord := "0"

  /** The label of one stored code, '' when the table has none (as `join` renders undefined). */
  function ElementLabel(code: Value, labels: map<string, string>): string
  {
    if ToStr(code) in labels then labels[ToStr(code)] else ""
  }

  /** `arrayAnswersAsString`: the label of every stored code, in order, joined by ','. */
  function ArrayAnswersAsString(codes: seq<Value>, labels: map<string, string>): (r: string)
    ensures |codes| == 0 ==> r == ""
    ensures |codes| == 1 ==> r == ElementLabel(codes[0], labels)
  {
    Join(seq(|codes|, i requires 0 <= i < |codes| => ElementLabel(codes[i], labels)), ",")
  }

  /** When the labels hold no comma, the joined text splits back into the labels, one per code. */
  lemma {:induction false} ArrayAnswersSplitBack(codes: seq<Value>, labels: map<string, string>)
    requires |codes| >= 1
    requires forall code :: code in labels ==> ',' !in labels[code]
    ensures Split(ArrayAnswersAsString(codes, labels), ',') == seq(|codes|, i requires 0 <= i < |codes| => ElementLabel(codes[i], labels))
  {
    var parts := seq(|codes|, i requires 0 <= i < |codes| => ElementLabel(codes[i], labels));
    assert forall i :: 0 <= i < |parts| ==> ',' !in parts[i];
    SplitJoin(parts, ',');
  }

  /** `getAnswer(application, questions, task, page, question)`. Key '0' returns
      the stored page record itself; a list answer becomes its labels joined by
      ','; a scalar answer becomes its label, or stays as stored when the code has
      none. Reading through a missing document, task, page or question entry throws. */
  function GetAnswer(app: Application, questions: QuestionTable, task: string, page: string, question: string)
    : (r: Result<Value, Thrown>)
    ensures (app.data.None? || task !in app.data.value) ==> r == Err(TypeError)
    ensures app.data.Some? && task in app.data.value && question == WholeRecord ==>
      r == Ok(Get(app.data.value[task], page))
    ensures r.Ok? && question != WholeRecord ==> (task, page, question) in questions
    ensures r.Ok? && question != WholeRecord && (task, page, question) in questions ==>
      var answer := Field(Get(app.data.value[task], page), question);
      var labels := questions[(task, page, question)].answers;
      && (answer.Arr? ==> r.value == Str(ArrayAnswersAsString(answer.items, labels)))
      && (!answer.Arr? && ToStr(answer) in labels ==> r.value == Str(labels[ToStr(answer)]))
      && (!answer.Arr? && ToStr(answer) !in labels ==> r.value == answer)
    ensures app.data.Some? && task in app.data.value && question != WholeRecord ==>
      (r.Ok? <==> (task, page, question) in questions
                  && !(Get(app.data.value[task], page).Undefined? || Get(app.data.value[task], page).Null?))
  {
    if app.data.None? || task !in app.data.value then Err(TypeError)
    else
      var record := Get(app.data.value[task], page);
      if question == WholeRecord then Ok(record)
      else if record.Undefined? || record.Null? || (task, page, question) !in questions then Err(TypeError)
      else
        var answer := Field(record, question);
        var labels := questions[(task, page, question)].answers;
        if answer.Arr? then Ok(Str(ArrayAnswersAsString(answer.items, labels)))
        else if ToStr(answer) in labels then Ok(Str(labels[ToStr(answer)]))
        else Ok(answer)
  }

  /** `/applications/{id}/tasks/{task}/pages/{page}`, the page a summary row's change link opens. */
  function ChangeHref(id: string, task: string, page: string): (r: string)
    ensures r == Join(["", "applications", id, "tasks", task, "pages", page], "/")
  {
    ChangeHrefIsJoin(id, task, page);
    "/applications/" + id + "/tasks/" + task + "/pages/" + page
  }

  /** Seven segments joined by a separator, written out. */
  lemma {:induction false} JoinSeven(a: string, b: string, c: string, d: string, e: string, f: string, g: string, sep: string)
    ensures Join([a, b, c, d, e, f, g], sep) == (a + sep) + ((b + sep) + ((c + sep) + ((d + sep) + ((e + sep) + ((f + sep) + g)))))
  {
    assert Join([g], sep) == g;
    assert [f, g][1..] == [g];
    assert Join([f, g], sep) == (f + sep) + g;
    assert [e, f, g][1..] == [f, g];
    assert Join([e, f, g], sep) == (e + sep) + Join([f, g], sep);
    assert [d, e, f, g][1..] == [e, f, g];
    assert Join([d, e, f, g], sep) == (d + sep) + Join([e, f, g], sep);
    assert [c, d, e, f, g][1..] == [d, e, f, g];
    assert Join([c, d, e, f, g], sep) == (c + sep) + Join([d, e, f, g], sep);
    assert [b, c, d, e, f, g][1..] == [c, d, e, f, g];
    assert Join([b, c, d, e, f, g], sep) == (b + sep) + Join([c, d, e, f, g], sep);
    assert [a, b, c, d, e, f, g][1..] == [b, c, d, e, f, g];
  }

  /** The change link written out is its seven path segments joined by '/'. */
  lemma ChangeHrefIsJoin(id: string, task: string, page: string)
    ensures "/applications/" + id + "/tasks/" + task + "/pages/" + page
         == Join(["", "applications", id, "tasks", task, "pages", page], "/")
  {
    JoinSeven("", "applications", id, "tasks", task, "pages", page, "/");
    assert "/applications/" + id + "/tasks/" + task + "/pages/" + page
        == ("" + "/") + (("applications" + "/") + ((id + "/") + (("tasks" + "/") + ((task + "/") + (("pages" + "/") + page)))));
  }

  /** A change link leads back to exactly the application, task and page it was built from. */
  lemma {:induction false} ChangeHrefIdentifiesThePage(id: string, task: string, page: string)
    requires '/' !in id && '/' !in task && '/' !in page
    ensures var parts := Split(ChangeHref(id, task, page), '/');
      |parts| == 7 && parts[2] == id && parts[4] == task && parts[6] == page
  {
    var parts := ["", "applications", id, "tasks", task, "pages", page];
    assert forall i :: 0 <= i < |parts| ==> '/' !in parts[i];
    SplitJoin(parts, '/');
  }

  /** A govuk summary list action. */
  datatype Action = Action(href: string, text: string, visuallyHiddenText: string)

  /** A govuk summary list row: the key text, the value html and its actions. */
  datatype SummaryListItem = SummaryListItem(keyText: string, valueHtml: string, actions: seq<Action>)

  /** `summaryListItemForQuestion(application, questions, task, question, page)`:
      the question as the key, the formatted answer as the value, and one 'Change'
      action back to the page. `formatLines` turns the answer into html. */
  function SummaryListItemForQuestion(app: Application, questions: QuestionTable, task: string, question: string,
                                     page: string, formatLines: Value -> string): (r: Result<SummaryListItem, Thrown>)
    ensures r.Ok? <==> GetAnswer(app, questions, task, page, question).Ok? && (task, page, question) in questions
    ensures r.Ok? ==>
      var text := questions[(task, page, question)].question;
      && r.value.keyText == text
      && r.value.valueHtml == formatLines(GetAnswer(app, questions, task, page, question).value)
      && r.value.actions == [Action(ChangeHref(app.id, task, page), "Change", text)]
  {
    match GetAnswer(app, questions, task, page, question)
    case Err(e) => Err(e)
    case Ok(answer) =>
      if (task, page, question) !in questions then Err(TypeError)
      else
        var text := questions[(task, page, question)].question;
        Ok(SummaryListItem(text, formatLines(answer), [Action(ChangeHref(app.id, task, page), "Change", text)]))
  }

  /** One stored record of a repeating group, as its entries in insertion order. */
  type Entries = seq<(string, Value)>

  const ListOpen := "<dl class=\"govuk-summary-list govuk-summary-list--embedded\">"
  const ListClose := "</dl>"
  const RowOpen := "<div class=\"govuk-summary-list__row govuk-summary-list__row--embedded\">"
  const RowClose := "</div>"
  const KeyOpen := "<dt class=\"govuk-summary-list__key govuk-summary-list__key--embedded\">"
  const KeyClose := "</dt>"
  const ValueOpen := "<dd class=\"govuk-summary-list__value govuk-summary-list__value--embedded\">"
  const ValueClose := "</dd>"

  /** The escaped key and value of every entry of every record: one list per record, one row per entry. */
  function EmbeddedRows(records: seq<Entries>, escape: Value -> string): (r: seq<seq<(string, string)>>)
    ensures |r| == |records|
    ensures forall i :: 0 <= i < |r| ==> |r[i]| == |records[i]|
    ensures forall i, j :: 0 <= i < |r| && 0 <= j < |r[i]| ==>
      r[i][j] == (escape(Str(records[i][j].0)), escape(records[i][j].1))
  {
    seq(|records|, i requires 0 <= i < |records| =>
      seq(|records[i]|, j requires 0 <= j < |records[i]| => (escape(Str(records[i][j].0)), escape(records[i][j].1))))
  }

  function RowHtml(row: (string, string)): string
  {
    RowOpen + KeyOpen + row.0 + KeyClose + ValueOpen + row.1 + ValueClose + RowClose
  }

  function RowsHtml(rows: seq<(string, string)>): string
  {
    if |rows| == 0 then "" else RowHtml(rows[0]) + RowsHtml(rows[1..])
  }

  function ListHtml(rows: seq<(string, string)>): string
  {
    ListOpen + RowsHtml(rows) + ListClose
  }

  function ListsHtml(lists: seq<seq<(string, string)>>): string
  {
    if |lists| == 0 then "" else ListHtml(lists[0]) + ListsHtml(lists[1..])
  }

  /** `embeddedSummaryListItem(records)`: one embedded summary list per record, with whitespace between tags left out. */
  function EmbeddedSummaryListItem(records: seq<Entries>, escape: Value -> string): (r: string)
    ensures |records| == 0 ==> r == ""
    ensures |records| > 0 ==> |r| >= |ListOpen| + |ListClose| && r[..|ListOpen|] == ListOpen && r[|r| - |ListClose|..] == ListClose
  {
    var rows := EmbeddedRows(records, escape);
    if |rows| == 0 then ListsHtml(rows)
    else ListsHtmlFrame(rows); ListsHtml(rows)
  }

  /** Text made of an opening, a middle and a closing part, followed by text that is
      empty or itself ends with the closing part, starts and ends as framed. */
  lemma Framed(open: string, middle: string, close: string, rest: string)
    requires rest == "" || (|rest| >= |close| && rest[|rest| - |close|..] == close)
    ensures var h := open + middle + close + rest;
      |h| >= |open| + |close| && h[..|open|] == open && h[|h| - |close|..] == close
  {
    var h := open + middle + close + rest;
    if rest == "" {
      assert h == open + middle + close;
    } else {
      assert h[|h| - |close|..] == rest[|rest| - |close|..];
    }
  }

  /** A non-empty rendering opens with a list and closes with one. */
  lemma {:induction false} ListsHtmlFrame(lists: seq<seq<(string, string)>>)
    requires |lists| > 0
    ensures var h := ListsHtml(lists);
      |h| >= |ListOpen| + |ListClose| && h[..|ListOpen|] == ListOpen && h[|h| - |ListClose|..] == ListClose
    decreases |lists|
  {
    if |lists| > 1 {
      ListsHtmlFrame(lists[1..]);
    }
    Framed(ListOpen, RowsHtml(lists[0]), ListClose, ListsHtml(lists[1..]));
  }

  /** Rendering two groups of records one after the other gives the two renderings side by side. */
  lemma {:induction false} ListsHtmlAppend(a: seq<seq<(string, string)>>, b: seq<seq<(string, string)>>)
    ensures ListsHtml(a + b) == ListsHtml(a) + ListsHtml(b)
    decreases |a|
  {
    if |a| == 0 {
      assert a + b == b;
    } else {
      var head, tail := ListHtml(a[0]), ListsHtml(a[1..]);
      assert (a + b)[0] == a[0];
      assert (a + b)[1..] == a[1..] + b;
      ListsHtmlAppend(a[1..], b);
      calc {
        ListsHtml(a + b);
        head + ListsHtml(a[1..] + b);
        head + (tail + ListsHtml(b));
        (head + tail) + ListsHtml(b);
        ListsHtml(a) + ListsHtml(b);
      }
    }
  }

  /** The embedded lists of two groups of records are the lists of each, side by side. */
  lemma EmbeddedSummaryListsConcatenate(a: seq<Entries>, b: seq<Entries>, escape: Value -> string)
    ensures EmbeddedSummaryListItem(a + b, escape) == EmbeddedSummaryListItem(a, escape) + EmbeddedSummaryListItem(b, escape)
  {
    assert EmbeddedRows(a + b, escape) == EmbeddedRows(a, escape) + EmbeddedRows(b, escape);
    ListsHtmlAppend(EmbeddedRows(a, escape), EmbeddedRows(b, escape));
  }
}
