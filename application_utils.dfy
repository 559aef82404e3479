/** Application predicates and the timeline of a submitted application (the
    contract server/utils/applications/utils.test.ts sets out). */
module ApplicationUtils {
  import opened JsValues
  import opened Applications

  const EligibilityTask := "confirm-eligibility"
  const EligibilityPage := "confirm-eligibility"

  /** `eligibilityQuestionIsAnswered`: the eligibility answer was given, either way. */
  function EligibilityQuestionIsAnswered(app: Application): (r: bool)
    ensures r <==> StoredAnswerIs(app, "yes") || StoredAnswerIs(app, "no")
    ensures app.data.None? ==> !r
    ensures app.data == Some(map[]) ==> !r
  {
    var answer := Field(StoredAnswers(app, EligibilityTask, EligibilityPage), "isEligible");
    answer == Str("yes") || answer == Str("no")
  }

  /** The stored `isEligible` answer is the given text. */
  predicate StoredAnswerIs(app: Application, text: string)
  {
    app.data.Some? && EligibilityTask in app.data.value
    && Field(Get(app.data.value[EligibilityTask], EligibilityPage), "isEligible") == Str(text)
  }

  /** A status update recorded by an assessor. */
  datatype StatusUpdate = StatusUpdate(labelText: string, description: string, updatedBy: string, updatedAt: string)

  /** A timeline entry: `timestamp` is the ISO text and `date` its display form. */
  datatype TimelineEvent = TimelineEvent(labelText: string, description: string, byline: string, timestamp: string, date: string)

  const SubmittedLabel := "Application submitted"
  const SubmittedDescription := "The application was received by an assessor."

  /** The event of one status update: the updater's username as byline, label and description copied. */
  function UpdateEvent(u: StatusUpdate, formatDateTime: string -> string): TimelineEvent
  {
    TimelineEvent(u.labelText, u.description, u.updatedBy, u.updatedAt, formatDateTime(u.updatedAt))
  }

  /** The event of the submission, with the submitter's name as byline. */
  function SubmittedEvent(submittedBy: string, submittedAt: string, formatDateTime: string -> string): TimelineEvent
  {
    TimelineEvent(SubmittedLabel, SubmittedDescription, submittedBy, submittedAt, formatDateTime(submittedAt))
  }

  /** Newest first by the instant each timestamp stands for. */
  predicate NewestFirst(events: seq<TimelineEvent>, instant: string -> int)
  {
    forall i, j :: 0 <= i < j < |events| ==> instant(events[i].timestamp) >= instant(events[j].timestamp)
  }

  /** Puts `e` into a list that is already newest first, ahead of the events no newer than it. */
  function Insert(e: TimelineEvent, sorted: seq<TimelineEvent>, instant: string -> int): (r: seq<TimelineEvent>)
    ensures multiset(r) == multiset(sorted) + multiset{e}
    ensures |r| == |sorted| + 1
  {
    if |sorted| == 0 then [e]
    else if instant(sorted[0].timestamp) <= instant(e.timestamp) then [e] + sorted
    else
      assert sorted == [sorted[0]] + sorted[1..];
      [sorted[0]] + Insert(e, sorted[1..], instant)
  }

  /** Inserting keeps a list newest first. */
  lemma {:induction false} InsertKeepsNewestFirst(e: TimelineEvent, sorted: seq<TimelineEvent>, instant: string -> int)
    requires NewestFirst(sorted, instant)
    ensures NewestFirst(Insert(e, sorted, instant), instant)
    decreases |sorted|
  {
    if |sorted| > 0 && instant(sorted[0].timestamp) > instant(e.timestamp) {
      var tail := sorted[1..];
      var rest := Insert(e, tail, instant);
      InsertKeepsNewestFirst(e, tail, instant);
      forall k | 0 <= k < |rest|
        ensures instant(rest[k].timestamp) <= instant(sorted[0].timestamp)
      {
        assert rest[k] in multiset(rest);
        if rest[k] != e {
          assert rest[k] in multiset(tail);
          var m :| 0 <= m < |tail| && tail[m] == rest[k];
          assert sorted[m + 1] == rest[k];
        }
      }
      var r := Insert(e, sorted, instant);
      assert r == [sorted[0]] + rest;
      forall i, j | 0 <= i < j < |r|
        ensures instant(r[i].timestamp) >= instant(r[j].timestamp)
      {
        if i > 0 {
          assert r[i] == rest[i - 1] && r[j] == rest[j - 1];
        } else {
          assert r[j] == rest[j - 1];
        }
      }
    }
  }

  /** Sorts events newest first. */
  function SortNewestFirst(events: seq<TimelineEvent>, instant: string -> int): (r: seq<TimelineEvent>)
    ensures multiset(r) == multiset(events)
    ensures |r| == |events|
    ensures NewestFirst(r, instant)
  {
    if |events| == 0 then []
    else
      assert events == [events[0]] + events[1..];
      var rest := SortNewestFirst(events[1..], instant);
      InsertKeepsNewestFirst(events[0], rest, instant);
      Insert(events[0], rest, instant)
  }

  /** `getApplicationTimelineEvents`: an event per status update plus the submission
      event, newest first. Missing status updates count as none. */
  function TimelineEvents(updates: Option<seq<StatusUpdate>>, submittedBy: string, submittedAt: string,
                          formatDateTime: string -> string, instant: string -> int): (r: seq<TimelineEvent>)
    ensures var us := if updates.Some? then updates.value else [];
      && |r| == |us| + 1
      && multiset(r) == multiset(seq(|us|, i requires 0 <= i < |us| => UpdateEvent(us[i], formatDateTime)))
                        + multiset{SubmittedEvent(submittedBy, submittedAt, formatDateTime)}
    ensures NewestFirst(r, instant)
    ensures updates.None? || updates.value == [] ==> r == [SubmittedEvent(submittedBy, submittedAt, formatDateTime)]
  {
    var us := if updates.Some? then updates.value else [];
    var events := seq(|us|, i requires 0 <= i < |us| => UpdateEvent(us[i], formatDateTime))
                  + [SubmittedEvent(submittedBy, submittedAt, formatDateTime)];
    SortNewestFirst(events, instant)
  }

  /** Every status update appears on the timeline. */
  lemma EveryUpdateIsOnTheTimeline(updates: seq<StatusUpdate>, k: nat, submittedBy: string, submittedAt: string,
                                   formatDateTime: string -> string, instant: string -> int)
    requires k < |updates|
    ensures UpdateEvent(updates[k], formatDateTime) in TimelineEvents(Some(updates), submittedBy, submittedAt, formatDateTime, instant)
  {
    var events := seq(|updates|, i requires 0 <= i < |updates| => UpdateEvent(updates[i], formatDateTime))
                  + [SubmittedEvent(submittedBy, submittedAt, formatDateTime)];
    var r := TimelineEvents(Some(updates), submittedBy, submittedAt, formatDateTime, instant);
    assert r == SortNewestFirst(events, instant);
    assert events[k] == UpdateEvent(updates[k], formatDateTime);
    assert events[k] in multiset(events);
  }
}
