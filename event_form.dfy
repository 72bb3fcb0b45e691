/** The event creation form: its default values, the checks on the start and end times and
    on the attendee limit, the payload a valid form sends, where a failed request's errors
    are shown, and what a successful creation does. Times are instants in milliseconds; an
    empty date field is `None`. */
module EventForm {
  import opened Wrappers
  import opened JsStrings
  import opened FormRules

  /** The attendee field read as a number: an empty field reads as NaN. */
  datatype Attendees = Blank | Num(v: real)

  /** The field values as the handler receives them. */
  datatype FormValues = FormValues(
    title: string,
    description: string,
    eventType: string,
    startTime: Option<int>,
    endTime: Option<int>,
    maxAttendees: Attendees)

  /** The fields of an event being edited, each possibly missing. */
  datatype EventRecord = EventRecord(
    title: Option<string>,
    description: Option<string>,
    eventType: Option<string>,
    startTime: Option<int>,
    endTime: Option<int>,
    maxAttendees: Option<int>)

  /** `x || fallback` on an optional text. */
  function TextOr(x: Option<string>, fallback: string): string {
    if x.Some? && x.value != "" then x.value else fallback
  }

  /** The instant a time has once cut to whole minutes (the first 16 characters of its ISO
      form, in UTC) and read back by the date field, which reads the text as local time:
      `tzOffset` is local time minus UTC. */
  function FieldInstant(t: int, tzOffset: int): (r: int)
    ensures (r + tzOffset) % 60000 == 0
    ensures r + tzOffset <= t < r + tzOffset + 60000
  {
    t - t % 60000 - tzOffset
  }

  function DefaultsOf(toEdit: Option<EventRecord>, tzOffset: int): (d: FormValues)
    ensures toEdit.None? ==> d == FormValues("", "", "webinar", None, None, Blank)
    ensures toEdit.Some? ==> d.title == TextOr(toEdit.value.title, "") && d.description == TextOr(toEdit.value.description, "")
    ensures toEdit.Some? ==> d.eventType == TextOr(toEdit.value.eventType, "webinar")
    ensures toEdit.Some? ==> (d.startTime.Some? <==> toEdit.value.startTime.Some?) && (d.endTime.Some? <==> toEdit.value.endTime.Some?)
    ensures toEdit.Some? && toEdit.value.startTime.Some? ==>
              d.startTime == Some(FieldInstant(toEdit.value.startTime.value, tzOffset))
    ensures toEdit.Some? && toEdit.value.endTime.Some? ==>
              d.endTime == Some(FieldInstant(toEdit.value.endTime.value, tzOffset))
    ensures d.maxAttendees.Num? <==> toEdit.Some? && toEdit.value.maxAttendees.Some? && toEdit.value.maxAttendees.value != 0
    ensures d.maxAttendees.Num? ==> d.maxAttendees.v == toEdit.value.maxAttendees.value as real
  {
    if toEdit.None? then FormValues("", "", "webinar", None, None, Blank)
    else
      var e := toEdit.value;
      FormValues(
        TextOr(e.title, ""),
        TextOr(e.description, ""),
        TextOr(e.eventType, "webinar"),
        if e.startTime.Some? then Some(FieldInstant(e.startTime.value, tzOffset)) else None,
        if e.endTime.Some? then Some(FieldInstant(e.endTime.value, tzOffset)) else None,
        if e.maxAttendees.Some? && e.maxAttendees.value != 0 then Num(e.maxAttendees.value as real) else Blank)
  }

  /** An edited event's times come back unchanged only when they are whole minutes and the
      browser runs on UTC; any other offset shifts both by the offset. */
  lemma DefaultTimesRoundTrip(e: EventRecord, tzOffset: int)
    requires e.startTime.Some? && e.startTime.value % 60000 == 0
    ensures DefaultsOf(Some(e), tzOffset).startTime == Some(e.startTime.value - tzOffset)
  {
  }

  // ---- Field rules ----

  const StartRequired := "Start Time is required"
  const StartPast := "Start time cannot be in the past"
  const StartAfterEnd := "Start time must be before end time"
  const EndRequired := "End time is required"
  const EndBeforeStart := "End time must be after start time"

  /** The start field: required, then not more than a minute in the past, then before the
      end when one is set. */
  function StartCheck(start: Option<int>, end: Option<int>, now: int): (c: Check)
    ensures c.Ok? <==> start.Some? && start.value >= now - 60000 && (end.None? || start.value < end.value)
    ensures start.None? ==> c == Bad(StartRequired)
    ensures start.Some? && start.value < now - 60000 ==> c == Bad(StartPast)
    ensures start.Some? && start.value >= now - 60000 && end.Some? && start.value >= end.value ==> c == Bad(StartAfterEnd)
  {
    if start.None? then Bad(StartRequired)
    else if start.value < now - 60000 then Bad(StartPast)
    else if end.Some? && start.value >= end.value then Bad(StartAfterEnd)
    else Ok
  }

  /** The end field: required, then after the start when one is set. No check that the end
      is in the future. */
  function EndCheck(start: Option<int>, end: Option<int>): (c: Check)
    ensures c.Ok? <==> end.Some? && (start.None? || end.value > start.value)
    ensures end.None? ==> c == Bad(EndRequired)
    ensures end.Some? && start.Some? && end.value <= start.value ==> c == Bad(EndBeforeStart)
  {
    if end.None? then Bad(EndRequired)
    else if start.Some? && end.value <= start.value then Bad(EndBeforeStart)
    else Ok
  }

  /** A window that starts no earlier than a minute ago and ends after it starts passes
      both time rules; a window of no length fails both. */
  lemma TimeRulesAgree(start: int, end: int, now: int)
    ensures now - 60000 <= start < end ==> StartCheck(Some(start), Some(end), now).Ok? && EndCheck(Some(start), Some(end)).Ok?
    ensures start == end ==> StartCheck(Some(start), Some(end), now).Bad? && EndCheck(Some(start), Some(end)) == Bad(EndBeforeStart)
  {
  }

  /** The two rules agree on the order of a set pair: the start rule, once past its time
      check, rejects exactly the pairs the end rule rejects. */
  lemma OrderRulesMatch(start: int, end: int, now: int)
    requires start >= now - 60000
    ensures StartCheck(Some(start), Some(end), now).Ok? <==> EndCheck(Some(start), Some(end)).Ok?
  {
  }

  const AtLeastOne := "Must be at least 1 attendee"
  const WholeNumber := "Must be a whole number"

  predicate IsInteger(v: real) {
    v.Floor as real == v
  }

  /** The attendee field: empty, or a number at least 1 that is whole. */
  function AttendeesCheck(a: Attendees): (c: Check)
    ensures c.Ok? <==> a.Blank? || (a.v >= 1.0 && IsInteger(a.v))
    ensures a.Num? && a.v < 1.0 ==> c == Bad(AtLeastOne)
    ensures a.Num? && a.v >= 1.0 && !IsInteger(a.v) ==> c == Bad(WholeNumber)
  {
    match a
    case Blank => Ok
    case Num(v) =>
      if v < 1.0 then Bad(AtLeastOne)
      else if !IsInteger(v) then Bad(WholeNumber)
      else Ok
  }

  /** All rules of the form: title, description and type are only required (the source's
      `trim` option is not a rule the form library knows, so blank text passes). */
  predicate FormValid(f: FormValues, now: int): (ok: bool)
    ensures ok <==> f.title != "" && f.description != "" && f.eventType != "" &&
                    f.startTime.Some? && f.endTime.Some? &&
                    now - 60000 <= f.startTime.value < f.endTime.value &&
                    (f.maxAttendees.Blank? || (f.maxAttendees.v >= 1.0 && IsInteger(f.maxAttendees.v)))
  {
    f.title != "" && f.description != "" && f.eventType != "" &&
    StartCheck(f.startTime, f.endTime, now).Ok? &&
    EndCheck(f.startTime, f.endTime).Ok? &&
    AttendeesCheck(f.maxAttendees).Ok?
  }

  // ---- Payload ----

  /** A payload value: text, an instant sent in ISO form, a number, or null. */
  datatype Value = Text(s: string) | Instant(t: int) | Number(n: int) | Null

  /** `parseInt(String(v), 10)` for numbers that `String` writes without an exponent
      (magnitude at least 1e-6 and below 1e21): the integer part, toward zero. */
  function TruncateReal(v: real): (n: int)
    ensures v >= 0.0 ==> n as real <= v < n as real + 1.0
    ensures v < 0.0 ==> n as real - 1.0 < v <= n as real
  {
    if v >= 0.0 then v.Floor else -((-v).Floor)
  }

  function TimeValue(t: Option<int>): Value {
    if t.Some? then Instant(t.value) else Null
  }

  /** `data.maxAttendees ? parseInt(...) : null`: NaN and 0 are falsy. */
  function AttendeesValue(a: Attendees): (x: Value)
    ensures x.Null? <==> a.Blank? || a.v == 0.0
  {
    if a.Num? && a.v != 0.0 then Number(TruncateReal(a.v)) else Null
  }

  const Keys: set<string> := {"title", "description", "eventType", "startTime", "endTime", "maxAttendees"}

  /** The payload: every field, the times as instants or null, and the attendee limit as a
      number, its key gone when the field gives null. */
  function SubmissionOf(f: FormValues): (m: map<string, Value>)
    ensures m.Keys == if AttendeesValue(f.maxAttendees).Null? then Keys - {"maxAttendees"} else Keys
    ensures m["title"] == Text(f.title) && m["description"] == Text(f.description) && m["eventType"] == Text(f.eventType)
    ensures m["startTime"] == (if f.startTime.Some? then Instant(f.startTime.value) else Null)
    ensures m["endTime"] == (if f.endTime.Some? then Instant(f.endTime.value) else Null)
    ensures "maxAttendees" in m ==> m["maxAttendees"].Number?
  {
    var full := map[
      "title" := Text(f.title), "description" := Text(f.description), "eventType" := Text(f.eventType),
      "startTime" := TimeValue(f.startTime), "endTime" := TimeValue(f.endTime),
      "maxAttendees" := AttendeesValue(f.maxAttendees)];
    if full["maxAttendees"].Null? then full - {"maxAttendees"} else full
  }

  /** A form that passes its rules sends both times and, when a limit was entered,
      exactly that limit. */
  lemma ValidPayload(f: FormValues, now: int)
    requires FormValid(f, now)
    ensures SubmissionOf(f)["startTime"].Instant? && SubmissionOf(f)["endTime"].Instant?
    ensures SubmissionOf(f)["startTime"].t < SubmissionOf(f)["endTime"].t
    ensures f.maxAttendees.Blank? <==> "maxAttendees" !in SubmissionOf(f)
    ensures f.maxAttendees.Num? ==> SubmissionOf(f)["maxAttendees"] == Number(f.maxAttendees.v.Floor)
    ensures f.maxAttendees.Num? ==> f.maxAttendees.v.Floor >= 1
  {
  }

  /** The payload built as the handler builds it: the spread, the converted fields, then
      the key deleted when the limit is null. */
  method BuildSubmission(f: FormValues) returns (m: map<string, Value>)
    ensures m == SubmissionOf(f)
  {
    m := map["title" := Text(f.title), "description" := Text(f.description), "eventType" := Text(f.eventType)];
    m := m["startTime" := TimeValue(f.startTime)];
    m := m["endTime" := TimeValue(f.endTime)];
    m := m["maxAttendees" := AttendeesValue(f.maxAttendees)];
    if m["maxAttendees"] == Null {
      m := m - {"maxAttendees"};
    }
  }

  // ---- Outcome ----

  const CreateFailed := "Failed to create event. Please check the details."

  /** An `errors` array (even an empty one) is set entry by entry; anything else becomes
      one root error carrying the message the toast shows. */
  function CreateErrorPlan(err: ServerError): (p: ErrorPlan)
    ensures p.PerField? <==> err.errors.Some?
    ensures p.PerField? ==> p.entries == err.errors.value
    ensures p.OnRoot? <==> err.errors.None?
    ensures p.OnRoot? ==> p.message == ErrorMessage(err, CreateFailed)
  {
    if err.errors.Some? then PerField(err.errors.value) else OnRoot(ErrorMessage(err, CreateFailed))
  }

  /** The created event as the response carries it. */
  datatype Created = Created(message: Option<string>, id: Option<string>)

  datatype Effect = Effect(toast: string, path: string)

  /** On success with a non-empty id: the success toast, then the event's page. */
  function SuccessEffect(isSuccess: bool, created: Option<Created>): (e: Option<Effect>)
    ensures e.Some? <==> isSuccess && created.Some? && created.value.id.Some? && created.value.id.value != ""
    ensures e.Some? ==> e.value.path == "/events/" + created.value.id.value
    ensures e.Some? ==> e.value.toast == MessageOr(created.value.message, "Event created successfully")
  {
    if isSuccess && created.Some? && created.value.id.Some? && created.value.id.value != "" then
      Some(Effect(MessageOr(created.value.message, "Event created successfully"), "/events/" + created.value.id.value))
    else None
  }

  /** The form's state across a submission. */
  class EventEditor {
    const defaults: FormValues
    var values: FormValues
    var sent: seq<map<string, Value>>
    var toasts: seq<string>
    var location: Option<string>
    const errors: FormErrors

    constructor (toEdit: Option<EventRecord>, tzOffset: int)
      ensures defaults == DefaultsOf(toEdit, tzOffset) && values == defaults
      ensures sent == [] && toasts == [] && location == None
      ensures fresh(errors) && errors.errors == map[]
    {
      defaults := DefaultsOf(toEdit, tzOffset);
      values := DefaultsOf(toEdit, tzOffset);
      sent := [];
      toasts := [];
      location := None;
      errors := new FormErrors();
    }

    method Edit(f: FormValues)
      modifies this
      ensures values == f && sent == old(sent) && toasts == old(toasts) && location == old(location)
    {
      values := f;
    }

    /** A submit sends the payload only when every rule passes. */
    method Submit(now: int) returns (called: bool)
      modifies this
      ensures called <==> FormValid(old(values), now)
      ensures sent == if called then old(sent) + [SubmissionOf(old(values))] else old(sent)
      ensures values == old(values) && toasts == old(toasts) && location == old(location)
    {
      called := FormValid(values, now);
      if called {
        var payload := BuildSubmission(values);
        sent := sent + [payload];
      }
    }

    /** The failure branch: the error toast, then the field or root errors. */
    method Fail(err: ServerError)
      modifies this, errors
      ensures toasts == old(toasts) + [ErrorMessage(err, CreateFailed)]
      ensures err.errors.Some? ==> errors.errors == ApplyErrors(old(errors.errors), err.errors.value)
      ensures err.errors.None? ==> errors.errors == old(errors.errors)[RootKey := ErrorMessage(err, CreateFailed)]
      ensures values == old(values) && sent == old(sent) && location == old(location)
    {
      toasts := toasts + [ErrorMessage(err, CreateFailed)];
      errors.Report(CreateErrorPlan(err));
    }

    /** The success effect: toast, reset to the defaults, and go to the new event. */
    method Succeeded(isSuccess: bool, created: Option<Created>)
      modifies this, errors
      ensures var e := SuccessEffect(isSuccess, created);
        if e.Some? then toasts == old(toasts) + [e.value.toast] && values == defaults && location == Some(e.value.path) &&
                        errors.errors == map[]
        else toasts == old(toasts) && values == old(values) && location == old(location) &&
             errors.errors == old(errors.errors)
      ensures sent == old(sent)
    {
      var e := SuccessEffect(isSuccess, created);
      if e.Some? {
        toasts := toasts + [e.value.toast];
        values := defaults;
        errors.Clear();
        location := Some(e.value.path);
      }
    }
  }
}
