/**
 * The decision logic of the appointment controller's `create`, `update` and
 * `getAvailableSlots` handlers over an abstract store.
 *
 * The store holds the appointments and the service catalogue; looking up a
 * service or an appointment reads it. The collaborators whose code is not
 * part of this model (user lookup, end-time arithmetic, the conflict and
 * duplicate queries, slot generation, the update schema) are uninterpreted
 * functions in `Collaborators`. Each handler also returns, in order, the
 * collaborator consultations and store writes it performed, so that which
 * checks run, in what order and with what arguments can be stated.
 */
module AppointmentController {
  import opened Wrappers
  import opened Json
  import opened Formats
  import opened AppointmentSchema
  import opened ErrorHandler

  datatype Appointment = Appointment(
    id: string,
    userId: Option<string>,
    serviceId: string,
    date: string,
    startTime: Option<string>,
    endTime: Option<string>,
    status: Status,
    notes: Option<string>)

  /** A catalogue entry; `duration` is in minutes and counts as given when it is not 0. */
  datatype Service = Service(name: string, duration: int, available: bool)

  datatype Store = Store(appointments: map<string, Appointment>, services: map<string, Service>)

  /** A validated update body: every field optional. */
  datatype Patch = Patch(
    userId: Option<string>,
    serviceId: Option<string>,
    date: Option<string>,
    startTime: Option<string>,
    endTime: Option<string>,
    status: Option<Status>,
    notes: Option<string>)

  datatype Slot = Slot(start: string, end: string)

  /**
   * The parts of the system the controller calls but whose code is not part
   * of this model. The two queries receive the appointment table they read.
   * `describeIssues` and `describeUpdateIssues` are the error texts of the
   * create and the update schema for a body they reject.
   */
  datatype Collaborators = Collaborators(
    dates: DateChecks,
    describeIssues: Value -> string,
    validateUpdate: Value -> Option<Patch>,
    describeUpdateIssues: Value -> string,
    userExists: Option<string> -> bool,
    calculateEndTime: (Option<string>, int) -> string,
    hasTimeConflict: (map<string, Appointment>, string, Option<string>, Option<string>, Option<string>) -> bool,
    isDuplicate: (map<string, Appointment>, Option<string>, string, Option<string>) -> bool,
    availableTimeSlots: (Store, string, string) -> seq<Slot>,
    stackTrace: Option<string>)

  /** One collaborator consultation or store write, with its arguments. */
  datatype Call =
    | CheckUser(user: Option<string>)
    | LookupService(serviceId: string)
    | CalculateEnd(start: Option<string>, duration: int)
    | CheckConflict(date: string, start: Option<string>, end: Option<string>, exclude: Option<string>)
    | CheckDuplicate(user: Option<string>, date: string, start: Option<string>)
    | LookupAppointment(id: string)
    | ListSlots(date: string, serviceId: string)
    | Insert(record: Appointment)
    | Write(id: string, patch: Patch)

  datatype Body =
    | Failed(message: string)
    | Saved(message: string, record: Appointment)
    | SlotList(date: string, serviceId: string, serviceName: string, duration: int, slots: seq<Slot>)

  /** A JSON reply sent by the handler, an empty 204, or an error passed to the error middleware. */
  datatype Reply = Send(status: int, body: Body) | NoContent | Forward(error: JsError)

  datatype Handled = Handled(reply: Reply, store: Store, calls: seq<Call>)

  const UnknownUserMessage := "El usuario no existe"
  const UnknownServiceMessage := "El servicio no existe"
  const UnavailableServiceMessage := "El servicio no está disponible"
  const TimeConflictMessage := "El horario no está disponible. Ya existe una cita programada en ese horario."
  const DuplicateMessage := "Ya tiene una cita programada en esa fecha y hora"
  const CreatedMessage := "Cita creada exitosamente"
  const InvalidIdMessage := "ID de cita inválido"
  const MissingAppointmentMessage := "La cita no existe"
  const UpdateConflictMessage := "El horario solicitado no está disponible, hay conflicto con otra cita"
  const UpdatedMessage := "Cita actualizada exitosamente"
  const MissingQueryMessage := "service_id y date son requeridos"

  /** `new Error(message)` with `status` set, as the handlers pass it to `next`. */
  function RequestError(message: string, status: int, c: Collaborators): JsError {
    JsError("Error", Some(status), message, None, c.stackTrace)
  }

  predicate HasCall(calls: seq<Call>, call: Call) {
    exists i :: 0 <= i < |calls| && calls[i] == call
  }

  predicate NoWrites(calls: seq<Call>) {
    forall i :: 0 <= i < |calls| ==> !calls[i].Insert? && !calls[i].Write?
  }

  // ---------------------------------------------------------------- create

  /** The position of each consultation in `create`'s fixed sequence of checks. */
  function CreateStage(call: Call): nat {
    match call
    case CheckUser(_) => 1
    case LookupService(_) => 2
    case CalculateEnd(_, _) => 3
    case CheckConflict(_, _, _, _) => 4
    case CheckDuplicate(_, _, _) => 5
    case Insert(_) => 6
    case _ => 0
  }

  /** Whether a consultation made by `create` lets the request go on. */
  predicate CreateCheckPasses(call: Call, store: Store, c: Collaborators) {
    match call
    case CheckUser(u) => c.userExists(u)
    case LookupService(id) => id in store.services && store.services[id].available
    case CheckConflict(d, s, e, x) => !c.hasTimeConflict(store.appointments, d, s, e, x)
    case CheckDuplicate(u, d, s) => !c.isDuplicate(store.appointments, u, d, s)
    case _ => true
  }

  /**
   * The JSON reply `create` sends when `call` is the check that failed. Only
   * the user, service, conflict and duplicate checks can fail, so the last
   * case is never sent; `CreateChecksInOrder` shows a failing call is one of those.
   */
  function CreateRejection(call: Call, store: Store): Reply {
    match call
    case CheckUser(_) => Send(404, Failed(UnknownUserMessage))
    case LookupService(id) =>
      if id !in store.services then Send(404, Failed(UnknownServiceMessage))
      else Send(400, Failed(UnavailableServiceMessage))
    case CheckConflict(_, _, _, _) => Send(409, Failed(TimeConflictMessage))
    case CheckDuplicate(_, _, _) => Send(409, Failed(DuplicateMessage))
    case _ => Send(500, Failed(""))
  }

  /** The end time `create` stores: the request's when truthy, else derived from a non-zero duration. */
  function CreateEndTime(req: AppointmentRequest, svc: Service, c: Collaborators): Option<string> {
    if !Truthy(req.endTime) && svc.duration != 0 then Some(c.calculateEndTime(req.startTime, svc.duration))
    else req.endTime
  }

  /** The checks `create` runs once the service is known to be bookable, then the insert. */
  function CreateBookable(req: AppointmentRequest, svc: Service, store: Store, c: Collaborators, freshId: string): Handled {
    var prefix := [CheckUser(req.userId), LookupService(req.serviceId)];
    var derive := !Truthy(req.endTime) && svc.duration != 0;
    var end := CreateEndTime(req, svc, c);
    var endCalls := prefix + (if derive then [CalculateEnd(req.startTime, svc.duration)] else []);
    var conflict := CheckConflict(req.date, req.startTime, end, None);
    if c.hasTimeConflict(store.appointments, req.date, req.startTime, end, None) then
      Handled(Send(409, Failed(TimeConflictMessage)), store, endCalls + [conflict])
    else
      var duplicate := CheckDuplicate(req.userId, req.date, req.startTime);
      if c.isDuplicate(store.appointments, req.userId, req.date, req.startTime) then
        Handled(Send(409, Failed(DuplicateMessage)), store, endCalls + [conflict, duplicate])
      else
        var record := Appointment(freshId, req.userId, req.serviceId, req.date, req.startTime, end, req.status, req.notes);
        Handled(Send(201, Saved(CreatedMessage, record)),
                Store(store.appointments[freshId := record], store.services),
                endCalls + [conflict, duplicate, Insert(record)])
  }

  /** Whether `create` ended by inserting a record. */
  predicate Inserted(h: Handled) {
    h.calls != [] && h.calls[|h.calls| - 1].Insert?
  }

  /**
   * `create`: validate the body, then check the user, the service, its
   * availability, a time conflict and a duplicate, in that order, stopping
   * at the first failure; otherwise insert the request under `freshId`, the
   * id the UUID generator produced.
   */
  function Create(body: Value, store: Store, c: Collaborators, freshId: string): (h: Handled)
    requires freshId !in store.appointments
    ensures h.calls == [] <==> ValidateAppointment(body, c.dates).None?
    ensures h.calls == [] ==> h.reply == Forward(RequestError(c.describeIssues(body), 400, c))
    ensures !Inserted(h) ==> h.store == store && NoWrites(h.calls)
    ensures Inserted(h) ==>
      var record := h.calls[|h.calls| - 1].record;
      && record.id == freshId
      && h.store == Store(store.appointments[freshId := record], store.services)
      && h.reply == Send(201, Saved(CreatedMessage, record))
  {
    match ValidateAppointment(body, c.dates)
    case None => Handled(Forward(RequestError(c.describeIssues(body), 400, c)), store, [])
    case Some(req) =>
      if !c.userExists(req.userId) then
        Handled(Send(404, Failed(UnknownUserMessage)), store, [CheckUser(req.userId)])
      else if req.serviceId !in store.services then
        Handled(Send(404, Failed(UnknownServiceMessage)), store, [CheckUser(req.userId), LookupService(req.serviceId)])
      else if !store.services[req.serviceId].available then
        Handled(Send(400, Failed(UnavailableServiceMessage)), store, [CheckUser(req.userId), LookupService(req.serviceId)])
      else
        CreateBookable(req, store.services[req.serviceId], store, c, freshId)
  }

  /**
   * `create` consults its checks in the fixed order user, service, end time,
   * conflict, duplicate, insert; every consultation before the last let the
   * request through; and a rejection is the reply of the one check that
   * failed.
   */
  lemma CreateChecksInOrder(body: Value, store: Store, c: Collaborators, freshId: string)
    requires freshId !in store.appointments
    ensures var h := Create(body, store, c, freshId);
      forall i :: 0 <= i < |h.calls| ==> 0 < CreateStage(h.calls[i])
    ensures var h := Create(body, store, c, freshId);
      forall i :: 0 <= i < |h.calls| - 1 ==> CreateStage(h.calls[i]) < CreateStage(h.calls[i + 1])
    ensures var h := Create(body, store, c, freshId);
      h.calls != [] ==> CreateStage(h.calls[0]) == 1
    ensures var h := Create(body, store, c, freshId);
      forall i :: 0 <= i < |h.calls| - 1 ==>
        || CreateStage(h.calls[i + 1]) == CreateStage(h.calls[i]) + 1
        || (CreateStage(h.calls[i]) == 2 && CreateStage(h.calls[i + 1]) == 4)
    ensures var h := Create(body, store, c, freshId);
      forall i :: 0 <= i < |h.calls| - 1 ==> CreateCheckPasses(h.calls[i], store, c)
    ensures var h := Create(body, store, c, freshId);
      h.calls != [] && !Inserted(h) ==>
        var last := h.calls[|h.calls| - 1];
        !CreateCheckPasses(last, store, c) && h.reply == CreateRejection(last, store)
  {
    CreateStagesInOrder(body, store, c, freshId);
    ContiguousStagesIncrease(Create(body, store, c, freshId).calls);
    CreateChecksPass(body, store, c, freshId);
  }

  /** The stage clauses of `CreateChecksInOrder`. */
  lemma CreateStagesInOrder(body: Value, store: Store, c: Collaborators, freshId: string)
    requires freshId !in store.appointments
    ensures var h := Create(body, store, c, freshId);
      h.calls != [] ==> CreateStage(h.calls[0]) == 1
    ensures var h := Create(body, store, c, freshId);
      forall i :: 0 <= i < |h.calls| - 1 ==>
        || CreateStage(h.calls[i + 1]) == CreateStage(h.calls[i]) + 1
        || (CreateStage(h.calls[i]) == 2 && CreateStage(h.calls[i + 1]) == 4)
  {
    match ValidateAppointment(body, c.dates)
    case None =>
    case Some(req) =>
      if c.userExists(req.userId) && req.serviceId in store.services && store.services[req.serviceId].available {
        assert Create(body, store, c, freshId) == CreateBookable(req, store.services[req.serviceId], store, c, freshId);
        BookableStagesInOrder(req, store.services[req.serviceId], store, c, freshId);
      }
  }

  /** The pass and rejection clauses of `CreateChecksInOrder`. */
  lemma CreateChecksPass(body: Value, store: Store, c: Collaborators, freshId: string)
    requires freshId !in store.appointments
    ensures var h := Create(body, store, c, freshId);
      forall i :: 0 <= i < |h.calls| - 1 ==> CreateCheckPasses(h.calls[i], store, c)
    ensures var h := Create(body, store, c, freshId);
      h.calls != [] && !Inserted(h) ==>
        var last := h.calls[|h.calls| - 1];
        !CreateCheckPasses(last, store, c) && h.reply == CreateRejection(last, store)
  {
    match ValidateAppointment(body, c.dates)
    case None =>
    case Some(req) =>
      if c.userExists(req.userId) && req.serviceId in store.services && store.services[req.serviceId].available {
        assert Create(body, store, c, freshId) == CreateBookable(req, store.services[req.serviceId], store, c, freshId);
        BookableChecksInOrder(req, store.services[req.serviceId], store, c, freshId);
      }
  }

  /** A trace whose stages start at 1 and never go back has positive, strictly increasing stages. */
  lemma {:induction false} ContiguousStagesIncrease(calls: seq<Call>)
    requires calls != [] ==> CreateStage(calls[0]) == 1
    requires forall i :: 0 <= i < |calls| - 1 ==>
      || CreateStage(calls[i + 1]) == CreateStage(calls[i]) + 1
      || (CreateStage(calls[i]) == 2 && CreateStage(calls[i + 1]) == 4)
    ensures forall i :: 0 <= i < |calls| ==> 0 < CreateStage(calls[i])
    ensures forall i :: 0 <= i < |calls| - 1 ==> CreateStage(calls[i]) < CreateStage(calls[i + 1])
  {
    if |calls| > 1 {
      forall i | 0 <= i < |calls|
        ensures 0 < CreateStage(calls[i])
      {
        var k := 0;
        while k < i
          invariant k <= i && 0 < CreateStage(calls[k])
        {
          k := k + 1;
        }
      }
    }
  }

  /** The stage clauses of `CreateChecksInOrder` for the part of `create` after the service was found bookable. */
  lemma BookableStagesInOrder(req: AppointmentRequest, svc: Service, store: Store, c: Collaborators, freshId: string)
    ensures var h := CreateBookable(req, svc, store, c, freshId);
      CreateStage(h.calls[0]) == 1
    ensures var h := CreateBookable(req, svc, store, c, freshId);
      forall i :: 0 <= i < |h.calls| - 1 ==>
        || CreateStage(h.calls[i + 1]) == CreateStage(h.calls[i]) + 1
        || (CreateStage(h.calls[i]) == 2 && CreateStage(h.calls[i + 1]) == 4)
  {
    var h := CreateBookable(req, svc, store, c, freshId);
    var end := CreateEndTime(req, svc, c);
    var derive := !Truthy(req.endTime) && svc.duration != 0;
    var head := [CheckUser(req.userId), LookupService(req.serviceId)]
      + (if derive then [CalculateEnd(req.startTime, svc.duration)] else []);
    assert forall i :: 0 <= i < |head| ==> CreateStage(head[i]) == i + 1;
    var conflict := CheckConflict(req.date, req.startTime, end, None);
    var duplicate := CheckDuplicate(req.userId, req.date, req.startTime);
    var tail :=
      if c.hasTimeConflict(store.appointments, req.date, req.startTime, end, None) then [conflict]
      else if c.isDuplicate(store.appointments, req.userId, req.date, req.startTime) then [conflict, duplicate]
      else [conflict, duplicate, h.calls[|h.calls| - 1]];
    assert h.calls == head + tail;
    assert forall i :: 0 <= i < |tail| ==> CreateStage(tail[i]) == i + 4;
  }

  /** The pass and rejection clauses of `CreateChecksInOrder` for the part of `create` after the service was found bookable. */
  lemma BookableChecksInOrder(req: AppointmentRequest, svc: Service, store: Store, c: Collaborators, freshId: string)
    requires c.userExists(req.userId) && req.serviceId in store.services
    requires store.services[req.serviceId] == svc && svc.available
    ensures var h := CreateBookable(req, svc, store, c, freshId);
      forall i :: 0 <= i < |h.calls| - 1 ==> CreateCheckPasses(h.calls[i], store, c)
    ensures var h := CreateBookable(req, svc, store, c, freshId);
      !Inserted(h) ==>
        var last := h.calls[|h.calls| - 1];
        !CreateCheckPasses(last, store, c) && h.reply == CreateRejection(last, store)
  {
    var h := CreateBookable(req, svc, store, c, freshId);
    var end := CreateEndTime(req, svc, c);
    var head := [CheckUser(req.userId), LookupService(req.serviceId)]
      + (if !Truthy(req.endTime) && svc.duration != 0 then [CalculateEnd(req.startTime, svc.duration)] else []);
    assert forall i :: 0 <= i < |head| ==> CreateCheckPasses(head[i], store, c);
    var conflict := CheckConflict(req.date, req.startTime, end, None);
    var duplicate := CheckDuplicate(req.userId, req.date, req.startTime);
    if c.hasTimeConflict(store.appointments, req.date, req.startTime, end, None) {
      assert h.calls == head + [conflict];
    } else if c.isDuplicate(store.appointments, req.userId, req.date, req.startTime) {
      assert h.calls == head + [conflict, duplicate];
    } else {
      assert h.calls == head + [conflict, duplicate, h.calls[|h.calls| - 1]];
    }
  }

  /**
   * The user check receives the request's user and the service lookup its service; the conflict
   * check receives date, start and end and nothing else; the duplicate check user, date and start.
   */
  lemma CreateCheckArguments(body: Value, store: Store, c: Collaborators, freshId: string)
    requires freshId !in store.appointments
    requires ValidateAppointment(body, c.dates).Some?
    ensures var h, req := Create(body, store, c, freshId), ValidateAppointment(body, c.dates).value;
      forall i :: 0 <= i < |h.calls| ==>
        && (h.calls[i].CheckUser? ==> h.calls[i].user == req.userId)
        && (h.calls[i].LookupService? ==> h.calls[i].serviceId == req.serviceId)
        && (h.calls[i].CheckConflict? ==>
              && h.calls[i].date == req.date && h.calls[i].start == req.startTime && h.calls[i].exclude.None?
              && req.serviceId in store.services
              && h.calls[i].end == CreateEndTime(req, store.services[req.serviceId], c))
        && (h.calls[i].CheckDuplicate? ==> h.calls[i] == CheckDuplicate(req.userId, req.date, req.startTime))
  {
    var req := ValidateAppointment(body, c.dates).value;
    if c.userExists(req.userId) && req.serviceId in store.services && store.services[req.serviceId].available {
      BookableCheckArguments(req, store.services[req.serviceId], store, c, freshId);
    }
  }

  /** `CreateCheckArguments` for the part of `create` after the service was found bookable. */
  lemma BookableCheckArguments(req: AppointmentRequest, svc: Service, store: Store, c: Collaborators, freshId: string)
    ensures var h := CreateBookable(req, svc, store, c, freshId);
      forall i :: 0 <= i < |h.calls| ==>
        && (h.calls[i].CheckUser? ==> h.calls[i].user == req.userId)
        && (h.calls[i].LookupService? ==> h.calls[i].serviceId == req.serviceId)
        && (h.calls[i].CheckConflict? ==>
              && h.calls[i].date == req.date && h.calls[i].start == req.startTime && h.calls[i].exclude.None?
              && h.calls[i].end == CreateEndTime(req, svc, c))
        && (h.calls[i].CheckDuplicate? ==> h.calls[i] == CheckDuplicate(req.userId, req.date, req.startTime))
  {
    var h := CreateBookable(req, svc, store, c, freshId);
    var end := CreateEndTime(req, svc, c);
    var head := [CheckUser(req.userId), LookupService(req.serviceId)]
      + (if !Truthy(req.endTime) && svc.duration != 0 then [CalculateEnd(req.startTime, svc.duration)] else []);
    var conflict := CheckConflict(req.date, req.startTime, end, None);
    var duplicate := CheckDuplicate(req.userId, req.date, req.startTime);
    var tail :=
      if c.hasTimeConflict(store.appointments, req.date, req.startTime, end, None) then [conflict]
      else if c.isDuplicate(store.appointments, req.userId, req.date, req.startTime) then [conflict, duplicate]
      else [conflict, duplicate, h.calls[|h.calls| - 1]];
    assert h.calls == head + tail;
    assert forall i :: 0 <= i < |head| ==> !head[i].CheckConflict? && !head[i].CheckDuplicate?;
    assert forall i :: 0 <= i < |tail| ==> !tail[i].CheckUser? && !tail[i].LookupService?;
  }

  /**
   * On success the inserted record is the validated request with the end
   * time completed: a supplied end time is kept, a missing one is derived
   * from the start time and a non-zero service duration.
   */
  lemma CreateStoresRequest(body: Value, store: Store, c: Collaborators, freshId: string)
    requires freshId !in store.appointments
    requires Inserted(Create(body, store, c, freshId))
    ensures ValidateAppointment(body, c.dates).value.serviceId in store.services
    ensures var h, req := Create(body, store, c, freshId), ValidateAppointment(body, c.dates).value;
      var svc := store.services[req.serviceId];
      && h.calls[|h.calls| - 1].record
         == Appointment(freshId, req.userId, req.serviceId, req.date, req.startTime, CreateEndTime(req, svc, c), req.status, req.notes)
      && (Truthy(req.endTime) ==> CreateEndTime(req, svc, c) == req.endTime)
      && (HasCall(h.calls, CalculateEnd(req.startTime, svc.duration)) <==> !Truthy(req.endTime) && svc.duration != 0)
  {
    var h, req := Create(body, store, c, freshId), ValidateAppointment(body, c.dates).value;
    var svc := store.services[req.serviceId];
    var end := CreateEndTime(req, svc, c);
    var record := Appointment(freshId, req.userId, req.serviceId, req.date, req.startTime, end, req.status, req.notes);
    var rest := [CheckConflict(req.date, req.startTime, end, None),
                 CheckDuplicate(req.userId, req.date, req.startTime), Insert(record)];
    if !Truthy(req.endTime) && svc.duration != 0 {
      assert h.calls == [CheckUser(req.userId), LookupService(req.serviceId), CalculateEnd(req.startTime, svc.duration)] + rest;
      assert h.calls[2] == CalculateEnd(req.startTime, svc.duration);
    } else {
      assert h.calls == [CheckUser(req.userId), LookupService(req.serviceId)] + rest;
    }
  }

  /** A service that exists but is unavailable is refused before the end time, conflict or duplicate check is consulted. */
  lemma UnavailableServiceStopsEarly(body: Value, store: Store, c: Collaborators, freshId: string)
    requires freshId !in store.appointments
    requires ValidateAppointment(body, c.dates).Some?
    requires var req := ValidateAppointment(body, c.dates).value;
      c.userExists(req.userId) && req.serviceId in store.services && !store.services[req.serviceId].available
    ensures var h := Create(body, store, c, freshId);
      && h.reply == Send(400, Failed(UnavailableServiceMessage))
      && forall i :: 0 <= i < |h.calls| ==> CreateStage(h.calls[i]) <= 2
  {
  }

  // ---------------------------------------------------------------- update

  /** The patch after `update`'s end-time step, and the consultations that step made. */
  datatype Recomputed = Recomputed(patch: Patch, calls: seq<Call>)

  /** The service `update` looks up: the patch's when truthy, else the stored one. */
  function UpdateServiceId(patch: Patch, existing: Appointment): string {
    if Truthy(patch.serviceId) then patch.serviceId.value else existing.serviceId
  }

  /** Whether `update` consults the catalogue to recompute the end time. */
  predicate WantsNewEnd(patch: Patch) {
    (Truthy(patch.startTime) || Truthy(patch.serviceId)) && !Truthy(patch.endTime)
  }

  /**
   * The end-time step of `update`: when the patch moves the start or the
   * service but gives no end, look up the (new or stored) service and, if it
   * has a duration, derive the end from the (new or stored) start.
   */
  function RecomputeEnd(patch: Patch, existing: Appointment, store: Store, c: Collaborators): (r: Recomputed)
    ensures WantsNewEnd(patch) <==> r.calls != []
    ensures r.calls != [] ==> r.calls[0] == LookupService(UpdateServiceId(patch, existing))
    ensures r.patch == patch.(endTime := r.patch.endTime)
    ensures r.patch.endTime != patch.endTime ==>
      var sid := UpdateServiceId(patch, existing);
      var start := OrElse(patch.startTime, existing.startTime);
      && WantsNewEnd(patch) && sid in store.services && store.services[sid].duration != 0
      && r.patch.endTime == Some(c.calculateEndTime(start, store.services[sid].duration))
      && r.calls == [LookupService(sid), CalculateEnd(start, store.services[sid].duration)]
    ensures WantsNewEnd(patch) && UpdateServiceId(patch, existing) in store.services
            && store.services[UpdateServiceId(patch, existing)].duration != 0 ==>
      var sid := UpdateServiceId(patch, existing);
      var start := OrElse(patch.startTime, existing.startTime);
      && r.patch.endTime == Some(c.calculateEndTime(start, store.services[sid].duration))
      && r.calls == [LookupService(sid), CalculateEnd(start, store.services[sid].duration)]
    ensures WantsNewEnd(patch) && !(UpdateServiceId(patch, existing) in store.services
            && store.services[UpdateServiceId(patch, existing)].duration != 0) ==>
      r.patch == patch && r.calls == [LookupService(UpdateServiceId(patch, existing))]
    ensures !WantsNewEnd(patch) ==> r.patch == patch
    ensures forall i :: 0 <= i < |r.calls| ==> r.calls[i].LookupService? || r.calls[i].CalculateEnd?
  {
    if !WantsNewEnd(patch) then Recomputed(patch, [])
    else
      var sid := UpdateServiceId(patch, existing);
      if sid in store.services && store.services[sid].duration != 0 then
        var start := OrElse(patch.startTime, existing.startTime);
        var duration := store.services[sid].duration;
        Recomputed(patch.(endTime := Some(c.calculateEndTime(start, duration))),
                   [LookupService(sid), CalculateEnd(start, duration)])
      else Recomputed(patch, [LookupService(sid)])
  }

  /** Whether `update` re-checks for conflicts: the final patch touches the date, the start or the end. */
  predicate MovesSlot(patch: Patch) {
    Truthy(patch.date) || Truthy(patch.startTime) || Truthy(patch.endTime)
  }

  /** The conflict check `update` runs: merged date, start and end, excluding the appointment itself. */
  function UpdateConflictCheck(patch: Patch, existing: Appointment, id: string): Call {
    CheckConflict(if Truthy(patch.date) then patch.date.value else existing.date,
                  OrElse(patch.startTime, existing.startTime),
                  OrElse(patch.endTime, existing.endTime),
                  Some(id))
  }

  /**
   * The stored appointment after the store applies a patch. The write
   * itself is not part of this model; it is taken to overwrite exactly the
   * fields the patch carries.
   */
  function ApplyPatch(a: Appointment, p: Patch): (r: Appointment)
    ensures r.id == a.id
    ensures p == Patch(None, None, None, None, None, None, None) ==> r == a
  {
    Appointment(a.id, if p.userId.Some? then p.userId else a.userId, p.serviceId.GetOr(a.serviceId),
                p.date.GetOr(a.date), if p.startTime.Some? then p.startTime else a.startTime,
                if p.endTime.Some? then p.endTime else a.endTime, p.status.GetOr(a.status),
                if p.notes.Some? then p.notes else a.notes)
  }

  /** Whether `update` ended by writing the appointment. */
  predicate Written(h: Handled) {
    h.calls != [] && h.calls[|h.calls| - 1].Write?
  }

  /**
   * `update`: validate the id and the body, load the appointment, recompute
   * its end time if needed, re-check conflicts if the slot moves, then write.
   * There is no ownership check and no duplicate check.
   */
  function Update(id: string, body: Value, store: Store, c: Collaborators): (h: Handled)
    ensures !IsUuid(id) ==> h == Handled(Forward(RequestError(InvalidIdMessage, 400, c)), store, [])
    ensures IsUuid(id) && c.validateUpdate(body).None? ==>
      h == Handled(Forward(RequestError(c.describeUpdateIssues(body), 400, c)), store, [])
    ensures IsUuid(id) && c.validateUpdate(body).Some? && id !in store.appointments ==>
      h == Handled(Forward(RequestError(MissingAppointmentMessage, 404, c)), store, [LookupAppointment(id)])
    ensures !Written(h) ==> h.store == store && NoWrites(h.calls)
    ensures forall i :: 0 <= i < |h.calls| ==> !h.calls[i].CheckDuplicate? && !h.calls[i].CheckUser?
    ensures Written(h) ==>
      && id in store.appointments
      && h.calls[|h.calls| - 1].id == id
      && h.store == Store(store.appointments[id := ApplyPatch(store.appointments[id], h.calls[|h.calls| - 1].patch)], store.services)
      && h.reply == Send(200, Saved(UpdatedMessage, h.store.appointments[id]))
  {
    if !IsUuid(id) then Handled(Forward(RequestError(InvalidIdMessage, 400, c)), store, [])
    else match c.validateUpdate(body)
    case None => Handled(Forward(RequestError(c.describeUpdateIssues(body), 400, c)), store, [])
    case Some(patch) =>
      if id !in store.appointments then
        Handled(Forward(RequestError(MissingAppointmentMessage, 404, c)), store, [LookupAppointment(id)])
      else
        var existing := store.appointments[id];
        var step := RecomputeEnd(patch, existing, store, c);
        var calls := [LookupAppointment(id)] + step.calls;
        if MovesSlot(step.patch) && CheckFails(UpdateConflictCheck(step.patch, existing, id), store, c) then
          Handled(Send(409, Failed(UpdateConflictMessage)), store, calls + [UpdateConflictCheck(step.patch, existing, id)])
        else
          var checks := if MovesSlot(step.patch) then [UpdateConflictCheck(step.patch, existing, id)] else [];
          var updated := ApplyPatch(existing, step.patch);
          Handled(Send(200, Saved(UpdatedMessage, updated)),
                  Store(store.appointments[id := updated], store.services),
                  calls + checks + [Write(id, step.patch)])
  }

  /** Whether a conflict check reports a conflict against the current appointments. */
  predicate CheckFails(call: Call, store: Store, c: Collaborators) {
    call.CheckConflict? && c.hasTimeConflict(store.appointments, call.date, call.start, call.end, call.exclude)
  }

  /**
   * Once the appointment is found, `update` re-checks conflicts exactly when
   * the patch (after the end-time step) touches the date, start or end; the
   * check uses the merged values and excludes the appointment's own id; and
   * a 409 is sent exactly when that check reports a conflict.
   */
  lemma UpdateConflictRule(id: string, body: Value, store: Store, c: Collaborators)
    requires IsUuid(id) && c.validateUpdate(body).Some? && id in store.appointments
    ensures var h, existing := Update(id, body, store, c), store.appointments[id];
      var step := RecomputeEnd(c.validateUpdate(body).value, existing, store, c);
      && h.calls[..1 + |step.calls|] == [LookupAppointment(id)] + step.calls
      && (MovesSlot(step.patch) <==> HasCall(h.calls, UpdateConflictCheck(step.patch, existing, id)))
      && (forall i :: 0 <= i < |h.calls| && h.calls[i].CheckConflict? ==>
            h.calls[i] == UpdateConflictCheck(step.patch, existing, id) && h.calls[i].exclude == Some(id))
      && (h.reply == Send(409, Failed(UpdateConflictMessage)) <==>
            MovesSlot(step.patch) && CheckFails(UpdateConflictCheck(step.patch, existing, id), store, c))
      && (!Written(h) <==> h.reply == Send(409, Failed(UpdateConflictMessage)))
      && (Written(h) ==> h.calls[|h.calls| - 1] == Write(id, step.patch))
  {
    var h, existing := Update(id, body, store, c), store.appointments[id];
    var step := RecomputeEnd(c.validateUpdate(body).value, existing, store, c);
    var conflict := UpdateConflictCheck(step.patch, existing, id);
    var calls := [LookupAppointment(id)] + step.calls;
    assert forall i :: 0 <= i < |calls| ==> !calls[i].CheckConflict?;
    if MovesSlot(step.patch) && CheckFails(conflict, store, c) {
      assert h == Handled(Send(409, Failed(UpdateConflictMessage)), store, calls + [conflict]);
      assert h.calls[|calls|] == conflict;
    } else if MovesSlot(step.patch) {
      assert h.calls == calls + [conflict, Write(id, step.patch)];
      assert h.calls[|calls|] == conflict;
      assert h.reply.Send? && h.reply.status == 200;
    } else {
      assert h.calls == calls + [Write(id, step.patch)];
      assert h.reply.Send? && h.reply.status == 200;
    }
  }

  /** A patch that changes only notes or status is written without any catalogue lookup or conflict check. */
  lemma NotesOrStatusPatchSkipsChecks(id: string, body: Value, store: Store, c: Collaborators)
    requires IsUuid(id) && id in store.appointments
    requires c.validateUpdate(body).Some?
    requires var p := c.validateUpdate(body).value;
      p.userId.None? && p.serviceId.None? && p.date.None? && p.startTime.None? && p.endTime.None?
    ensures var h := Update(id, body, store, c);
      && h.calls == [LookupAppointment(id), Write(id, c.validateUpdate(body).value)]
      && h.reply.Send? && h.reply.status == 200
  {
  }

  // ---------------------------------------------------------------- available slots

  /**
   * `getAvailableSlots`: both query parameters must be truthy, the service
   * must exist and be available; then the slot generator's list is sent, or
   * an empty 204 when it is empty. The store is only read.
   */
  function AvailableSlots(serviceId: Option<string>, date: Option<string>, store: Store, c: Collaborators): (h: Handled)
    ensures h.store == store && NoWrites(h.calls)
    ensures !Truthy(serviceId) || !Truthy(date) ==> h == Handled(Send(400, Failed(MissingQueryMessage)), store, [])
    ensures Truthy(serviceId) && Truthy(date) && serviceId.value !in store.services ==>
      h.reply == Send(404, Failed(UnknownServiceMessage))
    ensures Truthy(serviceId) && Truthy(date) && serviceId.value in store.services && !store.services[serviceId.value].available ==>
      h.reply == Send(400, Failed(UnavailableServiceMessage)) && h.calls == [LookupService(serviceId.value)]
    ensures HasCall(h.calls, ListSlots(date.GetOr(""), serviceId.GetOr(""))) <==>
      Truthy(serviceId) && Truthy(date) && serviceId.value in store.services && store.services[serviceId.value].available
    ensures h.reply.NoContent? <==>
      && HasCall(h.calls, ListSlots(date.GetOr(""), serviceId.GetOr("")))
      && c.availableTimeSlots(store, date.value, serviceId.value) == []
    ensures h.reply.Send? && h.reply.status == 200 ==>
      var svc := store.services[serviceId.value];
      h.reply.body == SlotList(date.value, serviceId.value, svc.name, svc.duration, c.availableTimeSlots(store, date.value, serviceId.value))
      && h.reply.body.slots != []
    ensures Truthy(serviceId) && Truthy(date) && serviceId.value in store.services && store.services[serviceId.value].available
            && c.availableTimeSlots(store, date.value, serviceId.value) != [] ==>
      var svc := store.services[serviceId.value];
      && h.reply == Send(200, SlotList(date.value, serviceId.value, svc.name, svc.duration,
                                       c.availableTimeSlots(store, date.value, serviceId.value)))
      && h.calls == [LookupService(serviceId.value), ListSlots(date.value, serviceId.value)]
  {
    if !Truthy(serviceId) || !Truthy(date) then Handled(Send(400, Failed(MissingQueryMessage)), store, [])
    else
      var sid, day := serviceId.value, date.value;
      if sid !in store.services then Handled(Send(404, Failed(UnknownServiceMessage)), store, [LookupService(sid)])
      else if !store.services[sid].available then Handled(Send(400, Failed(UnavailableServiceMessage)), store, [LookupService(sid)])
      else
        var svc := store.services[sid];
        var slots := c.availableTimeSlots(store, day, sid);
        var calls := [LookupService(sid), ListSlots(day, sid)];
        assert calls[1] == ListSlots(day, sid);
        if slots == [] then Handled(NoContent, store, calls)
        else Handled(Send(200, SlotList(day, sid, svc.name, svc.duration, slots)), store, calls)
  }

  // ---------------------------------------------------------------- HTTP outcome

  /** The HTTP status the client finally receives: forwarded errors go through the error middleware. */
  function HttpStatus(reply: Reply, isDevelopment: bool): int {
    match reply
    case Send(status, _) => status
    case NoContent => 204
    case Forward(err) => HandleError(err, isDevelopment).status
  }

  /** An invalid appointment body reaches the client as a 400, whatever the error text. */
  lemma InvalidBodyIsBadRequest(body: Value, store: Store, c: Collaborators, freshId: string, isDevelopment: bool)
    requires freshId !in store.appointments
    requires ValidateAppointment(body, c.dates).None?
    ensures HttpStatus(Create(body, store, c, freshId).reply, isDevelopment) == 400
    ensures Create(body, store, c, freshId).store == store
  {
  }

  /** Updating an id with no stored appointment reaches the client as a 404 saying so, and writes nothing. */
  lemma MissingAppointmentIsNotFound(id: string, body: Value, store: Store, c: Collaborators, isDevelopment: bool)
    requires IsUuid(id) && c.validateUpdate(body).Some? && id !in store.appointments
    ensures var h := Update(id, body, store, c);
      && HttpStatus(h.reply, isDevelopment) == 404
      && HandleError(h.reply.error, isDevelopment).body.message == MissingAppointmentMessage
      && h.store == store
  {
  }
}
