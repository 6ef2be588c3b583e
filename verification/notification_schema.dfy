/**
 * The notification request schema and the two id validators of the
 * notification routes. The object schema is not strict: undeclared keys are
 * stripped from the result rather than rejected.
 */
module NotificationSchema {
  import opened Wrappers
  import opened Json
  import opened Formats

  datatype NotificationType =
    | AppointmentCreated
    | AppointmentCancelled
    | AppointmentReminder
    | AppointmentCompleted
    | SystemNotification
    | ServiceUpdated

  function TypeName(t: NotificationType): string {
    match t
    case AppointmentCreated => "appointment_created"
    case AppointmentCancelled => "appointment_cancelled"
    case AppointmentReminder => "appointment_reminder"
    case AppointmentCompleted => "appointment_completed"
    case SystemNotification => "system_notification"
    case ServiceUpdated => "service_updated"
  }

  /** The six-value `type` enumeration. */
  function ParseType(s: string): (r: Option<NotificationType>)
    ensures r.Some? ==> TypeName(r.value) == s
    ensures r.None? ==> forall t :: TypeName(t) != s
  {
    if s == "appointment_created" then Some(AppointmentCreated)
    else if s == "appointment_cancelled" then Some(AppointmentCancelled)
    else if s == "appointment_reminder" then Some(AppointmentReminder)
    else if s == "appointment_completed" then Some(AppointmentCompleted)
    else if s == "system_notification" then Some(SystemNotification)
    else if s == "service_updated" then Some(ServiceUpdated)
    else None
  }

  lemma TypeNameRoundTrip(t: NotificationType)
    ensures ParseType(TypeName(t)) == Some(t)
  {
  }

  datatype Priority = Low | Medium | High

  function PriorityName(p: Priority): string {
    match p
    case Low => "low"
    case Medium => "medium"
    case High => "high"
  }

  function ParsePriority(s: string): (r: Option<Priority>)
    ensures r.Some? ==> PriorityName(r.value) == s
    ensures r.None? ==> s !in {"low", "medium", "high"}
  {
    if s == "low" then Some(Low)
    else if s == "medium" then Some(Medium)
    else if s == "high" then Some(High)
    else None
  }

  datatype NotificationRequest = NotificationRequest(
    userId: string,
    appointmentId: Option<string>,
    kind: NotificationType,
    title: string,
    message: string,
    priority: Option<Priority>,
    scheduledFor: Option<string>)

  const NotificationKeys: set<string> :=
    {"user_id", "appointment_id", "type", "title", "message", "priority", "scheduled_for"}

  const MaxTitleLength := 200
  const MaxMessageLength := 1000

  function EnumField<T>(fields: map<string, Value>, key: string, required: bool, parse: string -> Option<T>): (r: Option<Option<T>>)
    ensures key !in fields ==> (r.Some? <==> !required)
    ensures key in fields ==> (r.Some? <==> fields[key].Str? && parse(fields[key].s).Some?)
    ensures r.Some? && key in fields ==> r.value == parse(fields[key].s)
  {
    if key !in fields then
      if required then None else Some(None)
    else match fields[key]
      case Str(s) => if parse(s).Some? then Some(parse(s)) else None
      case _ => None
  }

  /**
   * `validateCreateNotification`; `isDatetime` stands for zod's ISO datetime
   * check on `scheduled_for`.
   */
  function ValidateCreateNotification(body: Value, isDatetime: string -> bool): (r: Option<NotificationRequest>)
    ensures r.Some? ==> body.Obj?
    ensures r.Some? ==>
      var f, n := body.fields, r.value;
      && "user_id" in f && f["user_id"] == Str(n.userId) && IsUuid(n.userId)
      && (n.appointmentId.Some? <==> "appointment_id" in f)
      && (n.appointmentId.Some? ==> f["appointment_id"] == Str(n.appointmentId.value) && IsUuid(n.appointmentId.value))
      && "type" in f && f["type"] == Str(TypeName(n.kind))
      && "title" in f && f["title"] == Str(n.title) && 1 <= |n.title| <= MaxTitleLength
      && "message" in f && f["message"] == Str(n.message) && 1 <= |n.message| <= MaxMessageLength
      && (n.priority.Some? <==> "priority" in f)
      && (n.priority.Some? ==> f["priority"] == Str(PriorityName(n.priority.value)))
      && (n.scheduledFor.Some? <==> "scheduled_for" in f)
      && (n.scheduledFor.Some? ==> f["scheduled_for"] == Str(n.scheduledFor.value) && isDatetime(n.scheduledFor.value))
  {
    if !body.Obj? then None
    else
      var f := body.fields;
      var userId :- RequiredString(f, "user_id", IsUuid);
      var appointmentId :- StringField(f, "appointment_id", false, IsUuid);
      var kind :- EnumField(f, "type", true, ParseType);
      var title :- RequiredString(f, "title", (s: string) => 1 <= |s| <= MaxTitleLength);
      var message :- RequiredString(f, "message", (s: string) => 1 <= |s| <= MaxMessageLength);
      var priority :- EnumField(f, "priority", false, ParsePriority);
      var scheduledFor :- StringField(f, "scheduled_for", false, isDatetime);
      Some(NotificationRequest(userId, appointmentId, kind.value, title, message, priority, scheduledFor))
  }

  /** The keys a notification request must carry. */
  const RequiredNotificationKeys: set<string> := {"user_id", "type", "title", "message"}

  /** What one key may hold; an undeclared key may hold anything. */
  predicate FieldConforms(key: string, v: Value, isDatetime: string -> bool) {
    if key == "user_id" || key == "appointment_id" then v.Str? && IsUuid(v.s)
    else if key == "type" then v.Str? && ParseType(v.s).Some?
    else if key == "title" then v.Str? && 1 <= |v.s| <= MaxTitleLength
    else if key == "message" then v.Str? && 1 <= |v.s| <= MaxMessageLength
    else if key == "priority" then v.Str? && ParsePriority(v.s).Some?
    else if key == "scheduled_for" then v.Str? && isDatetime(v.s)
    else true
  }

  /** The schema read key by key: the required keys are present and every key present conforms. */
  predicate Conforms(body: Value, isDatetime: string -> bool) {
    && body.Obj?
    && RequiredNotificationKeys <= body.fields.Keys
    && forall k :: k in body.fields ==> FieldConforms(k, body.fields[k], isDatetime)
  }

  /** A notification request is accepted exactly when it conforms key by key. */
  lemma ValidateCreateNotificationIsConforms(body: Value, isDatetime: string -> bool)
    ensures ValidateCreateNotification(body, isDatetime).Some? <==> Conforms(body, isDatetime)
  {
    if Conforms(body, isDatetime) {
      var f := body.fields;
      assert FieldConforms("user_id", f["user_id"], isDatetime);
      assert FieldConforms("type", f["type"], isDatetime);
      assert FieldConforms("title", f["title"], isDatetime);
      assert FieldConforms("message", f["message"], isDatetime);
      assert "appointment_id" in f ==> FieldConforms("appointment_id", f["appointment_id"], isDatetime);
      assert "priority" in f ==> FieldConforms("priority", f["priority"], isDatetime);
      assert "scheduled_for" in f ==> FieldConforms("scheduled_for", f["scheduled_for"], isDatetime);
    }
    if ValidateCreateNotification(body, isDatetime).Some? {
      var f := body.fields;
      forall k | k in f
        ensures FieldConforms(k, f[k], isDatetime)
      {
      }
    }
  }

  /** Without `.strict()`, an undeclared key never changes the outcome. */
  lemma UndeclaredKeyIgnored(fields: map<string, Value>, key: string, v: Value, isDatetime: string -> bool)
    requires key !in NotificationKeys
    ensures ValidateCreateNotification(Obj(fields[key := v]), isDatetime) == ValidateCreateNotification(Obj(fields), isDatetime)
  {
    var g := fields[key := v];
    assert forall k :: k in NotificationKeys ==> (k in g <==> k in fields) && (k in g ==> g[k] == fields[k]);
  }

  /** `validateUserId`: an id is accepted when it renders some well-formed UUID groups. */
  function ValidateUserId(id: string): (ok: bool)
    ensures ok <==> exists g :: WellFormedGroups(g) && RenderUuid(g) == id
  {
    UuidIsGroups(id);
    IsUuid(id)
  }

  /** `validateNotificationId`, a second copy of the same pattern. */
  function ValidateNotificationId(id: string): (ok: bool)
    ensures ok <==> exists g :: WellFormedGroups(g) && RenderUuid(g) == id
  {
    UuidIsGroups(id);
    IsUuid(id)
  }
}
