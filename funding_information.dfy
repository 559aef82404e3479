/** The funding source page of the area and funding task
    (server/form-pages/apply/area-and-funding/funding-information/fundingInformation.ts). */
module FundingSourcePage {
  import opened JsValues

  const PageName := "funding-source"

  const AnswerField := "fundingSource"
  const AnswerMessage := "Select a funding source"

  /** The funding source codes and their labels, in declaration order. */
  const FundingSources: seq<(string, string)> := [("personalSavings", "Personal money or savings"), ("benefits", "Benefits")]

  const BenefitsHint :=
    "This includes Housing Benefit and Universal Credit, Disability Living Allowance, and Employment and Support Allowance"

  /** A radio button as the form helper builds it; `hint` is None when the item has none. */
  datatype RadioItem = RadioItem(value: string, text: string, checked: bool, hint: Option<string>)

  /** `personName` is the person's name as the question shows it. */
  datatype FundingSource = FundingSource(body: Record, personName: string)

  function Question(p: FundingSource): string
  {
    "How will " + p.personName + " pay for their accommodation and service charge?"
  }

  /** `fundingSources[code]`: the code is used as a property key, so it is first converted to a string. */
  function Label(code: Value): (r: Value)
    ensures r.Undefined? <==> forall i :: 0 <= i < |FundingSources| ==> FundingSources[i].0 != ToStr(code)
    ensures forall i :: 0 <= i < |FundingSources| && FundingSources[i].0 == ToStr(code) ==> r == Str(FundingSources[i].1)
  {
    LabelIn(FundingSources, ToStr(code))
  }

  /** Looks a key up in an ordered table; the first entry with that key wins. */
  function LabelIn(table: seq<(string, string)>, key: string): (r: Value)
    ensures r.Undefined? <==> forall i :: 0 <= i < |table| ==> table[i].0 != key
    ensures r.Str? ==> exists i :: 0 <= i < |table| && table[i].0 == key && r == Str(table[i].1)
    ensures forall i :: 0 <= i < |table| && table[i].0 == key && (forall j :: 0 <= j < i ==> table[j].0 != key) ==>
      r == Str(table[i].1)
    ensures r.Undefined? || r.Str?
  {
    if |table| == 0 then Undefined
    else if table[0].0 == key then Str(table[0].1)
    else
      var r := LabelIn(table[1..], key);
      assert forall i :: 1 <= i < |table| ==> table[i] == table[1..][i - 1];
      r
  }

  /** Every label in the table is non-empty, so a known code always survives the pruning. */
  lemma LabelsAreTruthy(code: Value)
    requires exists i :: 0 <= i < |FundingSources| && FundingSources[i].0 == ToStr(code)
    ensures Truthy(Label(code))
  {
  }

  function Previous(p: FundingSource): string
  {
    "taskList"
  }

  /** The empty page name: the last page of its task. */
  function Next(p: FundingSource): string
  {
    ""
  }

  /** The page is entered from the task list and ends its task. */
  lemma Navigation(p: FundingSource)
    ensures Previous(p) == "taskList" && Next(p) == ""
  {
  }

  /** A funding source is required. */
  function Errors(p: FundingSource): (e: map<string, string>)
    ensures AnswerField in e <==> !Truthy(Get(p.body, AnswerField))
    ensures e.Keys <= {AnswerField}
    ensures AnswerField in e ==> e[AnswerField] == AnswerMessage
  {
    if !Truthy(Get(p.body, AnswerField)) then map[AnswerField := AnswerMessage] else map[]
  }

  /** A response with its falsy entries removed. */
  function Pruned(response: Record): (r: Record)
    ensures forall k :: k in r <==> k in response && Truthy(response[k])
    ensures forall k :: k in r ==> r[k] == response[k]
  {
    map k | k in response && Truthy(response[k]) :: response[k]
  }

  /** The `forEach` over `Object.keys(response)` that deletes each falsy entry in place. */
  method DeleteFalsy(response: Record) returns (r: Record)
    ensures r == Pruned(response)
  {
    r := response;
    var keys := response.Keys;
    while keys != {}
      invariant keys <= response.Keys
      invariant forall k :: k in r <==> k in response && (k in keys || Truthy(response[k]))
      invariant forall k :: k in r ==> r[k] == response[k]
      decreases |keys|
    {
      var key :| key in keys;
      if !Truthy(r[key]) {
        r := r - {key};
      }
      keys := keys - {key};
    }
  }

  /** The one question answered with the label of the chosen code, or nothing at all
      when the code is missing or unknown. */
  method Response(p: FundingSource) returns (r: Record)
    ensures Label(Get(p.body, AnswerField)).Str? ==> r == map[Question(p) := Label(Get(p.body, AnswerField))]
    ensures Label(Get(p.body, AnswerField)).Undefined? ==> r == map[]
  {
    var response := map[Question(p) := Label(Get(p.body, AnswerField))];
    r := DeleteFalsy(response);
    if Label(Get(p.body, AnswerField)).Str? {
      assert Label(Get(p.body, AnswerField)).s != "";
      assert r.Keys == response.Keys;
    } else {
      assert r.Keys == {};
    }
  }

  /** The radio items built from the funding sources, with the benefits hint added to the benefits item. */
  function Items(p: FundingSource, radioItems: (seq<(string, string)>, Value) -> seq<RadioItem>): (r: seq<RadioItem>)
    ensures var items := radioItems(FundingSources, Get(p.body, AnswerField));
      && |r| == |items|
      && forall i :: 0 <= i < |r| ==>
        && r[i].value == items[i].value && r[i].text == items[i].text && r[i].checked == items[i].checked
        && r[i].hint == (if items[i].value == "benefits" then Some(BenefitsHint) else items[i].hint)
  {
    var items := radioItems(FundingSources, Get(p.body, AnswerField));
    seq(|items|, i requires 0 <= i < |items| =>
      if items[i].value == "benefits" then items[i].(hint := Some(BenefitsHint)) else items[i])
  }
}
