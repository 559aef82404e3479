/** Assembly of an ISO-like date string from the `-day`, `-month`, `-year` and
    `-time` fields of a GOV.UK date input, written into the caller's object in
    place, and the validity check built on it (server/utils/dateUtils.ts). */
module DateUtils {
  import opened JsValues

  /** The object holding the date parts; `dateAndTimeInputsToIsoString` writes into it. */
  class DateInputs {
    var props: Record

    constructor (props: Record)
      ensures this.props == props
    {
      this.props := props;
    }
  }

  /** How `DateFormats.isoToDateObj` ends on the assembled value. */
  datatype ParseOutcome = Parsed | InvalidDateString | ParseTypeError | OtherParseError

  function DayKey(key: string): string { key + "-day" }
  function MonthKey(key: string): string { key + "-month" }
  function YearKey(key: string): string { key + "-year" }
  function TimeKey(key: string): string { key + "-time" }

  /** `` `0${v}`.slice(-2) ``: the last two characters of '0' followed by the part. */
  function PadTwo(v: Value): (r: string)
    ensures |r| == (if |ToStr(v)| >= 1 then 2 else 1)
    ensures r == ("0" + ToStr(v))[|"0" + ToStr(v)| - |r|..]
  {
    var s := "0" + ToStr(v);
    if |s| >= 2 then s[|s| - 2..] else s
  }

  /** A one-character part gains a leading zero. */
  lemma PadTwoOneChar(c: char)
    ensures PadTwo(Str([c])) == ['0', c]
  {
  }

  /** A two-character part is kept as it is. */
  lemma PadTwoTwoChars(s: string)
    requires |s| == 2
    ensures PadTwo(Str(s)) == s
  {
    assert ("0" + s)[1..] == s;
  }

  /** A missing part pads to "ed", the tail of "0undefined", so it never makes the guard fail. */
  lemma PadTwoMissing()
    ensures PadTwo(Undefined) == "ed"
  {
    assert "0" + "undefined" == "0undefined";
  }

  /** The value `dateAndTimeInputsToIsoString` stores at `o[key]`. */
  function IsoValue(props: Record, key: string): (r: Value)
    ensures r.Undefined? <==> !Truthy(Get(props, YearKey(key)))
    ensures Truthy(Get(props, YearKey(key))) ==>
      var date := ToStr(Get(props, YearKey(key))) + "-" + PadTwo(Get(props, MonthKey(key))) + "-" + PadTwo(Get(props, DayKey(key)));
      && (!Truthy(Get(props, TimeKey(key))) ==> r == Str(date))
      && (Truthy(Get(props, TimeKey(key))) ==> r == Str(date + "T" + ToStr(Get(props, TimeKey(key))) + ":00.000Z"))
  {
    var day := PadTwo(Get(props, DayKey(key)));
    var month := PadTwo(Get(props, MonthKey(key)));
    var year := Get(props, YearKey(key));
    var time := Get(props, TimeKey(key));
    if day != "" && month != "" && Truthy(year) then
      if Truthy(time) then Str(ToStr(year) + "-" + month + "-" + day + "T" + ToStr(time) + ":00.000Z")
      else Str(ToStr(year) + "-" + month + "-" + day)
    else Undefined
  }

  /** Because the padded parts are never empty, a present year alone is enough for
      a string to be assembled: missing day and month parts end up as "ed". */
  lemma {:induction false} MissingDayAndMonthStillAssemble(props: Record, key: string, year: string)
    requires Get(props, YearKey(key)) == Str(year) && year != ""
    requires Get(props, DayKey(key)) == Undefined && Get(props, MonthKey(key)) == Undefined
    requires !Truthy(Get(props, TimeKey(key)))
    ensures IsoValue(props, key) == Str(year + "-ed-ed")
  {
    PadTwoMissing();
    assert year + "-" + "ed" + "-" + "ed" == year + "-ed-ed";
  }

  /** `r` starts with `year-month-day`: each part sits at the offset the lengths before it fix. */
  predicate DateAt(r: string, year: string, month: string, day: string)
  {
    var m := |year| + 1;
    var e := m + |month| + 1;
    && |r| >= e + |day|
    && r[..|year|] == year && r[|year|] == '-'
    && r[m..m + |month|] == month && r[m + |month|] == '-'
    && r[e..e + |day|] == day
  }

  /** From offset `n` on, `r` is `T{t}:00.000Z`. */
  predicate TimeAt(r: string, n: nat, t: string)
  {
    && |r| == n + 1 + |t| + 8
    && r[n] == 'T' && r[n + 1..n + 1 + |t|] == t && r[n + 1 + |t|..] == ":00.000Z"
  }

  /** The parts of `year-month-day` can be read back, whatever their lengths. */
  lemma DateTextFields(year: string, month: string, day: string)
    ensures DateAt(year + "-" + month + "-" + day, year, month, day)
  {
  }

  /** The date parts keep their offsets when the time part follows. */
  lemma {:induction false} DateAndTimeTextFields(year: string, month: string, day: string, t: string)
    ensures var date := year + "-" + month + "-" + day;
      var r := date + "T" + t + ":00.000Z";
      DateAt(r, year, month, day) && TimeAt(r, |date|, t)
  {
    var date := year + "-" + month + "-" + day;
    var r := date + "T" + t + ":00.000Z";
    DateTextFields(year, month, day);
    assert r[..|date|] == date;
    var m := |year| + 1;
    var e := m + |month| + 1;
    assert r[..|year|] == date[..|year|];
    assert r[m..m + |month|] == date[m..m + |month|];
    assert r[e..e + |day|] == date[e..e + |day|];
  }

  /** For any present year, the year, the padded month, the padded day and the time
      can be read back from the assembled string at offsets fixed by the parts' lengths. */
  lemma {:induction false} IsoValueFields(props: Record, key: string)
    requires Truthy(Get(props, YearKey(key)))
    ensures var r := IsoValue(props, key).s;
      var y := ToStr(Get(props, YearKey(key)));
      var month := PadTwo(Get(props, MonthKey(key)));
      var day := PadTwo(Get(props, DayKey(key)));
      var n := |y| + |month| + |day| + 2;
      && DateAt(r, y, month, day)
      && (Truthy(Get(props, TimeKey(key))) ==> TimeAt(r, n, ToStr(Get(props, TimeKey(key)))))
      && (!Truthy(Get(props, TimeKey(key))) ==> |r| == n)
  {
    var y := ToStr(Get(props, YearKey(key)));
    var month := PadTwo(Get(props, MonthKey(key)));
    var day := PadTwo(Get(props, DayKey(key)));
    if Truthy(Get(props, TimeKey(key))) {
      DateAndTimeTextFields(y, month, day, ToStr(Get(props, TimeKey(key))));
    } else {
      DateTextFields(y, month, day);
    }
  }

  /** `DateFormats.dateAndTimeInputsToIsoString`: writes the assembled value into
      the caller's object and returns that same object. */
  method DateAndTimeInputsToIsoString(obj: DateInputs, key: string) returns (same: DateInputs)
    modifies obj
    ensures same == obj
    ensures obj.props == old(obj.props)[key := IsoValue(old(obj.props), key)]
  {
    obj.props := obj.props[key := IsoValue(obj.props, key)];
    same := obj;
  }

  /** `inputYear.length === 4`: strings and arrays have a length, other values none. */
  predicate LengthIsFour(v: Value)
  {
    (v.Str? && |v.s| == 4) || (v.Arr? && |v.items| == 4)
  }

  /** The early return on a present year of the wrong length. */
  predicate YearRejected(props: Record, key: string)
  {
    var year := Get(props, YearKey(key));
    Truthy(year) && !LengthIsFour(year)
  }

  /** What `dateAndTimeInputsAreValidDates` returns for a non-null input. */
  function ValidDates(props: Record, key: string, parse: Value -> ParseOutcome): (r: bool)
    ensures YearRejected(props, key) ==> !r
    ensures r && Truthy(Get(props, YearKey(key))) ==> LengthIsFour(Get(props, YearKey(key))) && IsoValue(props, key).Str?
    ensures !YearRejected(props, key) && parse(IsoValue(props, key)) in {Parsed, OtherParseError} ==> r
    ensures parse(IsoValue(props, key)) in {InvalidDateString, ParseTypeError} ==> !r
  {
    if YearRejected(props, key) then false
    else parse(IsoValue(props, key)) !in {InvalidDateString, ParseTypeError}
  }

  /** `dateAndTimeInputsAreValidDates`: null input is invalid, a present year must
      have four characters, and otherwise only a parse failure of the two caught
      kinds makes the date invalid (any other thrown error is swallowed). */
  method DateAndTimeInputsAreValidDates(obj: DateInputs?, key: string, parse: Value -> ParseOutcome)
    returns (valid: bool)
    modifies obj
    ensures obj == null ==> !valid
    ensures obj != null ==> valid == ValidDates(old(obj.props), key, parse)
    ensures obj != null && YearRejected(old(obj.props), key) ==> obj.props == old(obj.props)
    ensures obj != null && !YearRejected(old(obj.props), key) ==>
      obj.props == old(obj.props)[key := IsoValue(old(obj.props), key)]
  {
    if obj == null {
      return false;
    }
    var inputYear := Get(obj.props, YearKey(key));
    if Truthy(inputYear) && !LengthIsFour(inputYear) {
      return false;
    }
    var dateString := DateAndTimeInputsToIsoString(obj, key);
    var outcome := parse(Get(dateString.props, key));
    if outcome == InvalidDateString || outcome == ParseTypeError {
      return false;
    }
    return true;
  }
}
