# CitasMedicas appointment core in Dafny

CitasMedicas is an Express/MySQL back end for a clinic's appointment
book. Clients book, change and cancel appointments ("citas") for services
("servicios"), and the server keeps notifications ("notificaciones") about
them. This project models the part of the system that decides whether a
request is accepted and what happens to the appointment book:

- `Formats`: the shared string formats. The UUID pattern accepts versions
  1-5 and variants 8/9/a/b in either case. The time pattern is
  `H:MM:SS` or `HH:MM:SS` with hours 0-23. The date pattern is
  `YYYY-MM-DD`. The module also defines the seconds-of-day arithmetic that
  orders two times.
- `AppointmentSchema`: the strict appointment body. It covers the optional
  `user_id`, `start_time`, `end_time` and `notes`, the required
  `service_id` and `appointment_date`, and `status`, which defaults to
  `scheduled`. It also covers the "start before end" refinement and the
  "not in the past" refinement.
- `NotificationSchema`, `ServiceSchema`, `AuthSchema`: the notification,
  service and registration bodies, and the id validators.
- `AppointmentController`: the decision logic of `create`, `update` and
  `getAvailableSlots`. The appointment book and the service catalogue are
  an abstract `Store` of maps. Each handler returns its reply, the new
  store and the ordered trace of the collaborators it consulted. The trace
  is what makes "which check runs, in which order, with which arguments"
  statable.
- `NotificationHelper`: building the automatic appointment notifications
  and the system notifications.
- `ErrorHandler`: the Express error middleware, which maps an error object
  to a status and a JSON body.
- `Json`, `Text` and `Wrappers` are shared support: a JSON value type with
  JavaScript truthiness, substring occurrence and `Array.prototype.join`,
  and `Option`/`Result`.

Code that is not visible in these files is a parameter. This covers the
database queries, `checkUserExists`, `calculateEndTime`, the conflict and
duplicate queries, the slot generator, `Date.parse`, the clock, and the
e-mail and datetime checks. Each is a function-typed field of
`Collaborators`, `DateChecks`, or a validator argument, so every property
below holds for every behaviour of those collaborators. The fresh
appointment id (`uuidv4()` in the source) is an input that must not
already be in the store.

Some consequences of the code as written, which the model keeps:

- `update` does not check that the caller owns the appointment.
- `update` does not check that the service is available.
- `update` does not look for a duplicate booking. `UpdateConflictRule` and
  the `Update` contract state what the code actually consults.
- `create` sends no notification: the helper exists, but the controller
  never calls it.
- The error handler's 401 and 404 fallback messages can never be produced
  by the code as written, because the message is already non-empty at
  that point. `ErrorHandler.NoUnauthorizedOrNotFoundFallback` states this.

## Model

| member | source | states |
|---|---|---|
| Formats.UuidIsGroups | Schemas/citas.schema.js:89-94 | an id is accepted exactly when it is the dashed rendering of five hex groups of lengths 8-4-4-4-12, with version digit 1-5 and variant digit 8, 9, a or b, in either case |
| Formats.RenderUuidAccepted | Schemas/citas.schema.js:5-13 | every well-formed group tuple renders to a string the UUID pattern accepts |
| Formats.SplitUuidWellFormed | Schemas/citas.schema.js:5-13 | splitting an accepted id at its dashes gives well-formed groups that render back to the same id |
| Formats.TimePatternMeaning | Schemas/citas.schema.js:23-31 | the time pattern accepts exactly the strings whose hour (one or two digits) is 0-23 and whose minute and second fields are two digits, 00-59 |
| Formats.TimePatternExamples | Schemas/citas.schema.js:23-31 | "24:00:00" and "7:5:00" are rejected; "7:05:00", "23:59:59" and "00:00:00" are accepted |
| Formats.ParseClock | Schemas/citas.schema.js:45-46 | splitting an accepted time at the colons and converting each part to a number gives an hour below 24 and a minute and second below 60 |
| Formats.FormatClockRoundTrip | Schemas/citas.schema.js:23-31 | every valid clock prints as an accepted time that parses back to the same clock |
| Formats.ParseClockRoundTrip | Schemas/citas.schema.js:23-31 | parsing then printing an accepted time gives the same text, with a leading zero added to a one-digit hour |
| Formats.SecondsOrderIsClockOrder | Schemas/citas.schema.js:48-51 | comparing the seconds-of-day totals orders two valid clocks lexicographically by hour, minute and second; equal totals mean equal clocks |
| Formats.ClockSecondsInDay | Schemas/citas.schema.js:48-49 | the seconds-of-day total of a valid clock is below 86400, one day |
| Formats.FormatDateRoundTrip | Schemas/citas.schema.js:15-17 | a year, month and day of at most 4, 2 and 2 digits print as a string matching the date pattern that parses back to the same fields |
| Formats.ParseDateRoundTrip | Schemas/citas.schema.js:15-17 | a string matching the date pattern prints back from its parsed fields unchanged |
| AppointmentSchema.ParseStatus | Schemas/citas.schema.js:33-35 | a status string is accepted exactly when it is one of scheduled, cancelled or completed, and it parses to that status |
| AppointmentSchema.StatusNameRoundTrip | Schemas/citas.schema.js:33-35 | every status's name parses back to that status |
| AppointmentSchema.StatusField | Schemas/citas.schema.js:33-35 | a missing status key defaults to scheduled |
| AppointmentSchema.ValidateAppointment | Schemas/citas.schema.js:4-81 | an accepted body is an object whose keys are all declared. Every field in the result is the body's own value and passes its format check. The status defaults to scheduled, the notes are at most 1000 characters, and when both times are present the start is strictly before the end in seconds of the day |
| AppointmentSchema.ValidateAppointmentIsConforms | Schemas/citas.schema.js:4-81 | a body is accepted if and only if it satisfies the key-by-key description of the schema plus the two refinements |
| AppointmentSchema.ConformingBodyAccepted | Schemas/citas.schema.js:4-81 | a body that satisfies the key-by-key description is accepted |
| AppointmentSchema.AcceptedBodyConforms | Schemas/citas.schema.js:4-81 | an accepted body satisfies the key-by-key description |
| AppointmentSchema.UndeclaredKeyRejected | Schemas/citas.schema.js:38 | a body with any undeclared key is rejected (strict object) |
| AppointmentSchema.EqualTimesRejected | Schemas/citas.schema.js:42-58 | a body whose start and end time are the same string is rejected |
| AppointmentSchema.OneTimeIsUnordered | Schemas/citas.schema.js:44-53 | when either time is missing, the ordering refinement passes |
| NotificationSchema.ParseType | Schemas/notificaciones.schema.js:15-24 | a type string is accepted exactly when it names one of the six notification types |
| NotificationSchema.TypeNameRoundTrip | Schemas/notificaciones.schema.js:15-24 | every notification type's name parses back to that type |
| NotificationSchema.ParsePriority | Schemas/notificaciones.schema.js:34 | a priority is accepted only as low, medium or high |
| NotificationSchema.ValidateCreateNotification | Schemas/notificaciones.schema.js:4-39 | an accepted body has a UUID user id, an optional UUID appointment id and a known type. The title is 1-200 characters and the message 1-1000. The priority is optional and from the enum, and scheduled_for is an optional datetime. Every result field is the body's value, and an optional field is present exactly when its key is |
| NotificationSchema.ValidateCreateNotificationIsConforms | Schemas/notificaciones.schema.js:4-39 | a notification body is accepted if and only if it is an object carrying user_id, type, title and message, and every declared key it carries holds a conforming value; undeclared keys are unconstrained |
| NotificationSchema.UndeclaredKeyIgnored | Schemas/notificaciones.schema.js:4-39 | adding an undeclared key to a notification body does not change the result (non-strict object) |
| NotificationSchema.ValidateUserId | Schemas/notificaciones.schema.js:42-60 | a user id is accepted exactly when it is a well-formed UUID rendering |
| NotificationSchema.ValidateNotificationId | Schemas/notificaciones.schema.js:48-64 | a notification id is accepted exactly when it is a well-formed UUID rendering |
| ServiceSchema.ValidateService | Schemas/servicios.schema.js:4-10 | an accepted service has only declared keys, a name of 5-50 characters, a description of 10-200, numeric duration and price and a boolean availability, all taken from the body |
| ServiceSchema.ValidateServiceIsConforms | Schemas/servicios.schema.js:4-10 | a service body is accepted if and only if it is an object whose keys are exactly the five declared ones, each holding a conforming value |
| ServiceSchema.ValidateServiceUpdate | Schemas/servicios.schema.js:19 | an accepted service patch has only declared keys; each field is present exactly when its key is, equals the body's value, and passes the full schema's check |
| ServiceSchema.ValidateServiceUpdateIsPerField | Schemas/servicios.schema.js:19 | a patch is accepted if and only if every key present is declared and its value passes that field's check |
| ServiceSchema.FullServiceIsUpdate | Schemas/servicios.schema.js:4-19 | every accepted full service is also an accepted patch with every field present |
| ServiceSchema.ValidateAvailability | Schemas/servicios.schema.js:13-15 | an availability body is accepted exactly when its only key is disponible and that value is a boolean |
| ServiceSchema.AvailabilityIsUpdate | Schemas/servicios.schema.js:13-19 | an accepted availability body is a patch that changes only disponible |
| AuthSchema.ValidateRegistration | Schemas/auth.schema.js:5-11 | an accepted registration has exactly the four keys, a non-empty name, an e-mail passing the e-mail check, a phone of at least 8 characters and the role admin or client |
| AuthSchema.RegistrationRoundTrip | Schemas/auth.schema.js:5-11 | every registration meeting the field constraints, encoded as a body, is accepted as itself |
| AuthSchema.MissingFieldRejected | Schemas/auth.schema.js:5-11 | a body missing any of the four keys is rejected |
| ErrorHandler.HandleError | middlewares/errorHandler.js:1-49 | the response never reports success and carries the stack only in development. A ValidationError is a 400 whose message joins the details (or falls back to the error message, then to the default). The two token errors are 401 with their fixed messages. Any other error keeps its own status or 500, and its own message or the default. A 403 always carries the fixed forbidden message |
| ErrorHandler.NoUnauthorizedOrNotFoundFallback | middlewares/errorHandler.js:13-36 | the 401 and 404 fallback messages are produced only when the error's own message already was that text, or for a validation error; a non-empty message on a 401 or 404 reaches the client unchanged |
| ErrorHandler.ValidationDetailsReported | middlewares/errorHandler.js:6-11 | every detail message of a validation error appears in the response message |
| ErrorHandler.MessageEmptyOnlyForEmptyDetails | middlewares/errorHandler.js:6-11 | the response message is empty only for a validation error whose details list is empty or a single empty string |
| NotificationHelper.AppointmentEvent | helpers/notificationHelper.js:10-32 | exactly the four appointment event names are recognised, each as the notification type of that name |
| NotificationHelper.ComposeAppointmentNotification | helpers/notificationHelper.js:6-42 | an unknown type fails with the fixed error. Otherwise the notification carries the given user and appointment, the event's type and title, the custom message when it is truthy or the default otherwise, and priority high exactly for a reminder |
| NotificationHelper.CreateAppointmentNotification | helpers/notificationHelper.js:4-50 | an unknown type is only logged and nothing is stored. A known type stores the composed notification unless the store reports an error, which is logged and not rethrown |
| NotificationHelper.CreateSystemNotification | helpers/notificationHelper.js:53-68 | stores a system_notification with the given user, title and message and the priority defaulting to medium; a store error is logged, not rethrown |
| NotificationHelper.TitleIdentifiesEvent | helpers/notificationHelper.js:10-29 | two appointment events have the same title if and only if they are the same event |
| NotificationHelper.HighPriorityIffReminder | helpers/notificationHelper.js:41 | a stored appointment notification has priority high exactly when it is a reminder, and medium otherwise |
| NotificationHelper.DefaultMessageDetails | helpers/notificationHelper.js:11-29 | every default message mentions the service name. The created and cancelled messages mention the date. All but the completed message mention the start time |
| NotificationHelper.CustomMessageReplacesDefault | helpers/notificationHelper.js:13-28 | a non-empty custom message is used verbatim in place of the default |
| AppointmentController.Create | Controllers/citas.controller.js:67-158 | nothing is consulted exactly when the body fails validation, which is forwarded as a 400. When nothing is inserted the store is unchanged. An insert stores exactly one new record under the fresh id and replies 201 with it |
| AppointmentController.CreateChecksInOrder | Controllers/citas.controller.js:80-146 | a validated create consults user, service, end time, conflict, duplicate and insert in that order, each at most once. It starts with the user check, and only the end-time step may be skipped. Every consultation before the last passed, and a trace that stops before the insert ends in the check that failed, with that check's reply |
| AppointmentController.CreateCheckArguments | Controllers/citas.controller.js:81-130 | the user check gets the validated user id and the service lookup gets the request's service id. The conflict check gets the request's date and start, the end time that create derives and stores, and no exclusion. The duplicate check gets user, date and start |
| AppointmentController.CreateStoresRequest | Controllers/citas.controller.js:105-146 | the inserted record is the validated request plus the fresh id. A truthy end time is kept. The end-time calculation is consulted exactly when the end time is missing and the service duration is non-zero |
| AppointmentController.UnavailableServiceStopsEarly | Controllers/citas.controller.js:98-103 | an unavailable service is refused with 400 before any end-time, conflict or duplicate consultation |
| AppointmentController.RecomputeEnd | Controllers/citas.controller.js:238-247 | the catalogue is consulted exactly when the patch sets a start or a service without an end, using the patch's service or the stored one. Only the end time can change. It becomes the calculated end from the merged start exactly when the looked-up service exists with a non-zero duration, after a lookup and a calculation; otherwise the patch is unchanged |
| AppointmentController.Update | Controllers/citas.controller.js:208-278 | an invalid id or invalid patch is forwarded as 400 and a missing appointment as 404, all without writing. Update never consults the duplicate or user checks. A write applies the patch to that appointment only and replies 200 with the updated record |
| AppointmentController.UpdateConflictRule | Controllers/citas.controller.js:249-267 | conflicts are re-checked exactly when the patch after the end-time step touches the date, start or end, so a patch that changes only the service re-checks when that service has a duration. The check uses the merged values and excludes the appointment itself. The reply is 409 exactly when that check fails, and otherwise the write is the last step |
| AppointmentController.NotesOrStatusPatchSkipsChecks | Controllers/citas.controller.js:238-272 | a patch touching only notes or status is written after the lookup alone, with reply 200 |
| AppointmentController.AvailableSlots | Controllers/citas.controller.js:326-375 | slots are only read. A missing query parameter is a 400, an unknown service a 404 and an unavailable one a 400. The generator is consulted exactly when all checks pass. The reply is 204 exactly when its list is empty. A non-empty list is sent as a 200 with the date, the service's id, name and duration, and the list |
| AppointmentController.InvalidBodyIsBadRequest | Controllers/citas.controller.js:72-78 | an invalid create body reaches the client as a 400 and changes nothing |
| AppointmentController.MissingAppointmentIsNotFound | Controllers/citas.controller.js:229-236 | updating an unknown id reaches the client as a 404 with the "does not exist" message and changes nothing |

## Left out

- Models/*.js: the SQL queries, the connection pool and the notifications model are not part of this model. The reads are parameters or lookups in the abstract `Store`. `createAppointment` and `updateAppointment` are modelled as writes to the `Store`.
- AppointmentController.Create: the 201 reply carries the record that was inserted. The source sends whatever `createAppointment` returns, and that code is not part of this model.
- AppointmentController.Update: the 200 reply carries the record after the patch. The source sends whatever `updateAppointment` returns, and that code is not part of this model.
- `checkUserExists`, `calculateEndTime`, `checkServiceTimeConflict`, `checkDuplicateAppointment` and `getAvailableTimeSlots` are not part of this model. They are uninterpreted functions, so the properties hold whatever they compute.
- `Date.parse`, the "not in the past" comparison against today's clock, zod's e-mail check and zod's datetime check are uninterpreted predicates, because they depend on the clock or on library internals.
- The update schema is an uninterpreted validator. Schemas/citas.schema.js:76 applies `.partial()` to a refined schema, which zod does not support, so the module fails when it is loaded. The controller also imports `validateUserId`, which Schemas/citas.schema.js does not export, and Schemas/servicios.schema.js calls `zod.Object`, which does not exist. The model states what these schemas evidently intend, not the load-time failures.
- AppointmentController.ApplyPatch: states only that the write keeps the id and that an empty patch changes nothing. The Store write keeps every column the patch leaves out. This is the model's own assumption, and the code does not do it: `updateAppointment` (Models/citas.models.js:126-149) takes all seven columns from the validated patch and binds each one in the `UPDATE`, so a column missing from the patch is passed as `undefined` instead of being kept.
- Zod's issue text is left out: a validation failure is forwarded with an uninterpreted message, `describeIssues` for the create schema and `describeUpdateIssues` for the update schema.
- Lengths are counted in `char`s, not UTF-16 code units, so characters outside the Basic Multilingual Plane count once rather than twice.
- Promise rejection and exceptions thrown by collaborators are left out. In the source they reach `next(error)`, and `ErrorHandler.HandleError` models what the middleware then does.
- Concurrency is left out: two concurrent creates can both pass the conflict check before either inserts.
- Routing, the JWT and bcrypt authentication middleware, `isAdmin`, `asyncHandler`, the server bootstrap, and the user, service and notification controllers are left out; they lie outside the appointment core.
- `remove`, `getAll`, `getAllScheduled`, `getAllCancelled` and `getAllCompleted` in the appointment controller are left out. `remove` validates the appointment id (a 400) and replies 200 with the delete's result, with no 204. `getAll` validates the user id (a 400) and checks that the user exists (a 404) before its query. After those checks, each of the five forwards one query's result; the four listing handlers reply 204 to an empty list.
- Console logging in the notification helper is left out, except that a swallowed error is returned as `Logged`.
