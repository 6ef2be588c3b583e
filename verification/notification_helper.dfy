/**
 * The notification helpers that appointment events call: a fixed title,
 * default message and priority per event type, and error swallowing, so a
 * failed notification never reaches the caller. The notification store is
 * the parameter `createNotification`, which answers `None` when the record
 * is stored and `Some(error)` when storing it throws.
 */
module NotificationHelper {
  import opened Wrappers
  import opened Text
  import opened NotificationSchema
  import Json

  /** The fields the helper destructures from its `appointmentData` argument. */
  datatype AppointmentInfo = AppointmentInfo(
    userId: string,
    appointmentId: Option<string>,
    appointmentDate: string,
    startTime: string,
    serviceName: string)

  datatype Notification = Notification(
    userId: string,
    appointmentId: Option<string>,
    kind: NotificationType,
    title: string,
    message: string,
    priority: string)

  /** What a helper call leaves behind: the stored notification, or the error it logged instead of throwing. */
  datatype Effect = Stored(notification: Notification) | Logged(error: string)

  const UnknownTypeError := "Tipo de notificación no válido"

  /** The four event types the appointment helper's `switch` handles. */
  function AppointmentEvent(kind: string): (r: Option<NotificationType>)
    ensures r.Some? ==> TypeName(r.value) == kind
    ensures r.Some? <==> kind in {"appointment_created", "appointment_cancelled", "appointment_reminder", "appointment_completed"}
  {
    match ParseType(kind)
    case Some(AppointmentCreated) => Some(AppointmentCreated)
    case Some(AppointmentCancelled) => Some(AppointmentCancelled)
    case Some(AppointmentReminder) => Some(AppointmentReminder)
    case Some(AppointmentCompleted) => Some(AppointmentCompleted)
    case _ => None
  }

  predicate IsAppointmentEvent(t: NotificationType) {
    t.AppointmentCreated? || t.AppointmentCancelled? || t.AppointmentReminder? || t.AppointmentCompleted?
  }

  function Title(t: NotificationType): string
    requires IsAppointmentEvent(t)
  {
    match t
    case AppointmentCreated => "Cita Agendada"
    case AppointmentCancelled => "Cita Cancelada"
    case AppointmentReminder => "Recordatorio de Cita"
    case AppointmentCompleted => "Cita Completada"
  }

  function DefaultMessage(t: NotificationType, info: AppointmentInfo): string
    requires IsAppointmentEvent(t)
  {
    match t
    case AppointmentCreated =>
      "Su cita de " + info.serviceName + " ha sido agendada para el " + info.appointmentDate + " a las " + info.startTime + "."
    case AppointmentCancelled =>
      "Su cita de " + info.serviceName + " programada para el " + info.appointmentDate + " a las " + info.startTime + " ha sido cancelada."
    case AppointmentReminder =>
      "Recordatorio: Tiene una cita de " + info.serviceName + " mañana a las " + info.startTime + ". Por favor confirme su asistencia."
    case AppointmentCompleted =>
      "Su cita de " + info.serviceName + " ha sido completada exitosamente. Gracias por su visita."
  }

  /** The body of the helper's `try` block up to the store call: the record it builds, or the error it throws. */
  function ComposeAppointmentNotification(kind: string, info: AppointmentInfo, customMessage: Option<string>): (r: Result<Notification, string>)
    ensures r.Failure? <==> AppointmentEvent(kind).None?
    ensures r.Failure? ==> r.error == UnknownTypeError
    ensures r.Success? ==>
      && TypeName(r.value.kind) == kind && IsAppointmentEvent(r.value.kind)
      && r.value.userId == info.userId && r.value.appointmentId == info.appointmentId
      && r.value.title == Title(r.value.kind)
      && (Json.Truthy(customMessage) ==> r.value.message == customMessage.value)
      && (!Json.Truthy(customMessage) ==> r.value.message == DefaultMessage(r.value.kind, info))
      && (r.value.priority == "high" <==> kind == "appointment_reminder")
      && (r.value.priority != "high" ==> r.value.priority == "medium")
  {
    match AppointmentEvent(kind)
    case None => Failure(UnknownTypeError)
    case Some(t) =>
      var message := if Json.Truthy(customMessage) then customMessage.value else DefaultMessage(t, info);
      var priority := if kind == "appointment_reminder" then "high" else "medium";
      Success(Notification(info.userId, info.appointmentId, t, Title(t), message, priority))
  }

  /** `createAppointmentNotification`: every thrown error is caught and logged. */
  function CreateAppointmentNotification(
    kind: string, info: AppointmentInfo, customMessage: Option<string>,
    createNotification: Notification -> Option<string>): (e: Effect)
    ensures AppointmentEvent(kind).None? ==> e == Logged(UnknownTypeError)
    ensures e.Stored? ==>
      && TypeName(e.notification.kind) == kind
      && e.notification.userId == info.userId && e.notification.appointmentId == info.appointmentId
      && createNotification(e.notification).None?
    ensures AppointmentEvent(kind).Some? ==>
      var n := ComposeAppointmentNotification(kind, info, customMessage).value;
      e == match createNotification(n) case None => Stored(n) case Some(err) => Logged(err)
  {
    match ComposeAppointmentNotification(kind, info, customMessage)
    case Failure(err) => Logged(err)
    case Success(n) =>
      match createNotification(n)
      case None => Stored(n)
      case Some(err) => Logged(err)
  }

  /** `createSystemNotification`: type `system_notification`, priority `'medium'` unless given. */
  function CreateSystemNotification(
    userId: string, title: string, message: string, priority: Option<string>,
    createNotification: Notification -> Option<string>): (e: Effect)
    ensures e.Stored? ==>
      && e.notification.kind == SystemNotification
      && e.notification.appointmentId.None?
      && e.notification.priority == (if priority.Some? then priority.value else "medium")
      && e.notification.userId == userId && e.notification.title == title && e.notification.message == message
    ensures e.Logged? <==> createNotification(Notification(userId, None, SystemNotification, title, message, priority.GetOr("medium"))).Some?
  {
    var n := Notification(userId, None, SystemNotification, title, message, priority.GetOr("medium"));
    match createNotification(n)
    case None => Stored(n)
    case Some(err) => Logged(err)
  }

  /** Each appointment event has its own title, so the title identifies the event. */
  lemma TitleIdentifiesEvent(a: NotificationType, b: NotificationType)
    requires IsAppointmentEvent(a) && IsAppointmentEvent(b)
    ensures Title(a) == Title(b) <==> a == b
  {
  }

  /** A stored appointment notification is high priority exactly when it is a reminder. */
  lemma HighPriorityIffReminder(kind: string, info: AppointmentInfo, customMessage: Option<string>,
                                createNotification: Notification -> Option<string>)
    requires CreateAppointmentNotification(kind, info, customMessage, createNotification).Stored?
    ensures
      var n := CreateAppointmentNotification(kind, info, customMessage, createNotification).notification;
      (n.priority == "high" <==> kind == "appointment_reminder") && (n.priority != "high" ==> n.priority == "medium")
  {
  }

  /**
   * Which appointment details each default message carries: the service
   * name always; the date only for created and cancelled; the start time for
   * all but completed.
   */
  lemma DefaultMessageDetails(t: NotificationType, info: AppointmentInfo)
    requires IsAppointmentEvent(t)
    ensures Occurs(info.serviceName, DefaultMessage(t, info))
    ensures t.AppointmentCreated? || t.AppointmentCancelled? ==> Occurs(info.appointmentDate, DefaultMessage(t, info))
    ensures !t.AppointmentCompleted? ==> Occurs(info.startTime, DefaultMessage(t, info))
  {
    match t
    case AppointmentCreated =>
      OccursInTemplate3("Su cita de ", info.serviceName, " ha sido agendada para el ",
                        info.appointmentDate, " a las ", info.startTime, ".");
    case AppointmentCancelled =>
      OccursInTemplate3("Su cita de ", info.serviceName, " programada para el ",
                        info.appointmentDate, " a las ", info.startTime, " ha sido cancelada.");
    case AppointmentReminder =>
      OccursInTemplate2("Recordatorio: Tiene una cita de ", info.serviceName, " mañana a las ",
                        info.startTime, ". Por favor confirme su asistencia.");
    case AppointmentCompleted =>
      OccursBetween("Su cita de ", info.serviceName, " ha sido completada exitosamente. Gracias por su visita.");
  }

  /** A truthy custom message replaces the default text verbatim, for every appointment event. */
  lemma CustomMessageReplacesDefault(kind: string, info: AppointmentInfo, custom: string)
    requires AppointmentEvent(kind).Some? && custom != ""
    ensures ComposeAppointmentNotification(kind, info, Some(custom)).value.message == custom
  {
  }
}
