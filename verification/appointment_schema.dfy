/**
 * The appointment request schema: field shapes, the status enumeration and
 * its default, the notes bound, the strict key set, and the refinement that
 * a start time comes strictly before an end time when both are given.
 */
module AppointmentSchema {
  import opened Wrappers
  import opened Json
  import opened Formats

  datatype Status = Scheduled | Cancelled | Completed

  function StatusName(s: Status): string {
    match s
    case Scheduled => "scheduled"
    case Cancelled => "cancelled"
    case Completed => "completed"
  }

  /** `z.enum(['scheduled', 'cancelled', 'completed'])`. */
  function ParseStatus(s: string): (r: Option<Status>)
    ensures r.Some? ==> StatusName(r.value) == s
    ensures r.None? ==> s !in {"scheduled", "cancelled", "completed"}
  {
    if s == "scheduled" then Some(Scheduled)
    else if s == "cancelled" then Some(Cancelled)
    else if s == "completed" then Some(Completed)
    else None
  }

  lemma StatusNameRoundTrip(st: Status)
    ensures ParseStatus(StatusName(st)) == Some(st)
  {
  }

  /**
   * The two date checks that depend on the runtime: `Date.parse` accepting
   * the string, and the date not lying before today on the server's clock.
   */
  datatype DateChecks = DateChecks(parses: string -> bool, notInPast: string -> bool)

  /** A request body that passed validation, with `status` defaulted. */
  datatype AppointmentRequest = AppointmentRequest(
    userId: Option<string>,
    serviceId: string,
    date: string,
    startTime: Option<string>,
    endTime: Option<string>,
    status: Status,
    notes: Option<string>)

  const AppointmentKeys: set<string> :=
    {"user_id", "service_id", "appointment_date", "start_time", "end_time", "status", "notes"}

  const MaxNotesLength := 1000

  /** `status`: the enumeration, `'scheduled'` when the key is absent. */
  function StatusField(fields: map<string, Value>): (r: Option<Status>)
    ensures "status" !in fields ==> r == Some(Scheduled)
  {
    if "status" !in fields then Some(Scheduled)
    else match fields["status"]
      case Str(s) => ParseStatus(s)
      case _ => None
  }

  /**
   * The ordering refinement: when both times are truthy their seconds since
   * midnight must be strictly increasing; otherwise it passes.
   */
  predicate TimesOrdered(start: Option<string>, end: Option<string>) {
    Truthy(start) && Truthy(end) ==>
      IsTime(start.value) && IsTime(end.value) && TimeSeconds(start.value) < TimeSeconds(end.value)
  }

  /** `validateAppointments`: the whole schema with both refinements. */
  function ValidateAppointment(body: Value, dates: DateChecks): (r: Option<AppointmentRequest>)
    ensures r.Some? ==> body.Obj? && OnlyKeys(body.fields, AppointmentKeys)
    ensures r.Some? ==>
      var f, a := body.fields, r.value;
      && "service_id" in f && f["service_id"] == Str(a.serviceId) && IsUuid(a.serviceId)
      && "appointment_date" in f && f["appointment_date"] == Str(a.date) && IsDate(a.date) && dates.parses(a.date) && dates.notInPast(a.date)
      && (a.userId.Some? <==> "user_id" in f) && (a.userId.Some? ==> f["user_id"] == Str(a.userId.value) && IsUuid(a.userId.value))
      && (a.startTime.Some? <==> "start_time" in f) && (a.startTime.Some? ==> f["start_time"] == Str(a.startTime.value) && IsTime(a.startTime.value))
      && (a.endTime.Some? <==> "end_time" in f) && (a.endTime.Some? ==> f["end_time"] == Str(a.endTime.value) && IsTime(a.endTime.value))
      && (a.notes.Some? <==> "notes" in f) && (a.notes.Some? ==> f["notes"] == Str(a.notes.value) && |a.notes.value| <= MaxNotesLength)
      && ("status" in f ==> f["status"] == Str(StatusName(a.status)))
      && ("status" !in f ==> a.status == Scheduled)
    ensures r.Some? && r.value.startTime.Some? && r.value.endTime.Some? ==>
      TimeSeconds(r.value.startTime.value) < TimeSeconds(r.value.endTime.value)
  {
    if !body.Obj? then None
    else
      var f := body.fields;
      var userId :- StringField(f, "user_id", false, IsUuid);
      var serviceId :- RequiredString(f, "service_id", IsUuid);
      var date :- RequiredString(f, "appointment_date", (s: string) => IsDate(s) && dates.parses(s));
      var start :- StringField(f, "start_time", false, IsTime);
      var end :- StringField(f, "end_time", false, IsTime);
      var status :- StatusField(f);
      var notes :- StringField(f, "notes", false, (s: string) => |s| <= MaxNotesLength);
      if !OnlyKeys(f, AppointmentKeys) then None
      else if !TimesOrdered(start, end) then None
      else if !dates.notInPast(date) then None
      else Some(AppointmentRequest(userId, serviceId, date, start, end, status, notes))
  }

  /** What one key may hold, read off the schema declaration; undeclared keys may hold nothing. */
  predicate FieldConforms(key: string, v: Value, dates: DateChecks) {
    if key == "user_id" || key == "service_id" then v.Str? && IsUuid(v.s)
    else if key == "appointment_date" then v.Str? && IsDate(v.s) && dates.parses(v.s)
    else if key == "start_time" || key == "end_time" then v.Str? && IsTime(v.s)
    else if key == "status" then v.Str? && v.s in {"scheduled", "cancelled", "completed"}
    else if key == "notes" then v.Str? && |v.s| <= MaxNotesLength
    else false
  }

  /** The schema as a declarative condition on the body's key/value pairs. */
  predicate Conforms(body: Value, dates: DateChecks) {
    && body.Obj?
    && "service_id" in body.fields && "appointment_date" in body.fields
    && (forall k :: k in body.fields ==> FieldConforms(k, body.fields[k], dates))
    && dates.notInPast(body.fields["appointment_date"].s)
    && ("start_time" in body.fields && "end_time" in body.fields ==>
          TimeSeconds(body.fields["start_time"].s) < TimeSeconds(body.fields["end_time"].s))
  }

  /** Every conforming body is accepted. */
  lemma ConformingBodyAccepted(body: Value, dates: DateChecks)
    requires Conforms(body, dates)
    ensures ValidateAppointment(body, dates).Some?
  {
    var f := body.fields;
    assert FieldConforms("service_id", f["service_id"], dates);
    assert FieldConforms("appointment_date", f["appointment_date"], dates);
    assert "user_id" in f ==> FieldConforms("user_id", f["user_id"], dates);
    assert "start_time" in f ==> FieldConforms("start_time", f["start_time"], dates);
    assert "end_time" in f ==> FieldConforms("end_time", f["end_time"], dates);
    assert "status" in f ==> FieldConforms("status", f["status"], dates);
    assert "notes" in f ==> FieldConforms("notes", f["notes"], dates);
    assert OnlyKeys(f, AppointmentKeys) by {
      forall k | k in f
        ensures k in AppointmentKeys
      {
        assert FieldConforms(k, f[k], dates);
      }
    }
  }

  /** Every accepted body conforms. */
  lemma AcceptedBodyConforms(body: Value, dates: DateChecks)
    requires ValidateAppointment(body, dates).Some?
    ensures Conforms(body, dates)
  {
    var f := body.fields;
    forall k | k in f
      ensures FieldConforms(k, f[k], dates)
    {
      assert k in AppointmentKeys;
    }
  }

  /** The validator accepts exactly the conforming bodies. */
  lemma ValidateAppointmentIsConforms(body: Value, dates: DateChecks)
    ensures ValidateAppointment(body, dates).Some? <==> Conforms(body, dates)
  {
    if Conforms(body, dates) {
      ConformingBodyAccepted(body, dates);
    }
    if ValidateAppointment(body, dates).Some? {
      AcceptedBodyConforms(body, dates);
    }
  }

  /** `.strict()`: a single undeclared key rejects the request, whatever else it holds. */
  lemma UndeclaredKeyRejected(fields: map<string, Value>, key: string, dates: DateChecks)
    requires key in fields && key !in AppointmentKeys
    ensures ValidateAppointment(Obj(fields), dates).None?
  {
  }

  /** Equal start and end times fail the ordering refinement. */
  lemma EqualTimesRejected(fields: map<string, Value>, t: string, dates: DateChecks)
    requires "start_time" in fields && "end_time" in fields
    requires fields["start_time"] == Str(t) && fields["end_time"] == Str(t)
    ensures ValidateAppointment(Obj(fields), dates).None?
  {
  }

  /** With one of the two times absent, the ordering refinement does not constrain the other. */
  lemma OneTimeIsUnordered(start: Option<string>, end: Option<string>)
    requires start.None? || end.None?
    ensures TimesOrdered(start, end)
  {
  }
}
