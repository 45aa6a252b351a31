/**
 * The `useAppointments` hook (`src/hooks/useAppointments.ts`): the list of
 * appointments shown on screen, kept as React state, over the appointment
 * store. The device calendar is not part of this model: what creating a
 * calendar event answered is a parameter.
 */
module UseAppointments {
  import opened Wrappers
  import opened Types
  import opened Seqs
  import Constants
  import opened AppointmentRepository
  import ServiceRepository

  /** What `createCalendarEvent` answered: success, and the event id when there is one. */
  datatype CalendarResult = CalendarResult(success: bool, eventId: Option<string>)

  /** The calendar event id recorded: only a successful result carrying a (non-empty) id. */
  function RecordedEventId(calendar: CalendarResult): (r: Option<string>)
    ensures r.Some? <==> calendar.success && calendar.eventId.Some? && calendar.eventId.value != ""
    ensures r.Some? ==> r == calendar.eventId
  {
    if calendar.success && calendar.eventId.Some? && calendar.eventId.value != "" then calendar.eventId else None
  }

  /** The message of a successful creation: the calendar part is added exactly when the calendar succeeded. */
  function CreatedMessage(calendar: CalendarResult): (m: string)
    ensures calendar.success ==> m == Constants.APPOINTMENT_CREATED + " " + Constants.CALENDAR_EVENT_CREATED
    ensures !calendar.success ==> m == Constants.APPOINTMENT_CREATED
  {
    if calendar.success then Constants.APPOINTMENT_CREATED + " " + Constants.CALENDAR_EVENT_CREATED
    else Constants.APPOINTMENT_CREATED
  }

  /** The message for an error `create` threw: a clash, or anything else. */
  function ErrorMessage(error: string): (m: string)
    ensures m == Constants.APPOINTMENT_CONFLICT <==> error == Constants.TIME_CONFLICT
    ensures m == Constants.APPOINTMENT_ERROR <==> error != Constants.TIME_CONFLICT
  {
    if error == Constants.TIME_CONFLICT then Constants.APPOINTMENT_CONFLICT else Constants.APPOINTMENT_ERROR
  }

  /**
   * The store after `createAppointment` recorded the calendar event id of a
   * new appointment: the first entry with that id gets it, when there is one.
   */
  function RecordEvent(stored: seq<Appointment>, id: string, calendar: CalendarResult, updateStamp: string): seq<Appointment> {
    var k := IndexOfAppointment(stored, id);
    if RecordedEventId(calendar).Some? && k != -1
    then stored[k := UpdatedAppointment(stored[k], UpdateAppointmentRequest(RecordedEventId(calendar)), updateStamp)]
    else stored
  }

  /** Recording a calendar event id keeps the store free of double bookings. */
  lemma RecordEventKeepsNoDoubleBooking(stored: seq<Appointment>, id: string, calendar: CalendarResult, updateStamp: string)
    ensures NoDoubleBooking(stored) ==> NoDoubleBooking(RecordEvent(stored, id, calendar, updateStamp))
    ensures |RecordEvent(stored, id, calendar, updateStamp)| == |stored|
  {
    var k := IndexOfAppointment(stored, id);
    if RecordedEventId(calendar).Some? && k != -1 && NoDoubleBooking(stored) {
      UpdateKeepsNoDoubleBooking(stored, k, UpdateAppointmentRequest(RecordedEventId(calendar)), updateStamp);
    }
  }

  /**
   * What `createAppointment` leaves in the store, and whether it succeeded:
   * a failed creation leaves the store as it was; a successful one appends
   * the new entry and records its calendar event id.
   */
  function StoreAfterCreate(stored: seq<Appointment>, services: seq<Service>, data: CreateAppointmentRequest,
                            id: string, timestamp: string, calendar: CalendarResult, updateStamp: string): (r: (bool, seq<Appointment>))
    ensures !r.0 ==> r.1 == stored
    ensures r.0 <==> CreateOutcome(stored, services, data, id, timestamp).Success?
    ensures r.0 ==> |r.1| == |stored| + 1
  {
    match CreateOutcome(stored, services, data, id, timestamp)
    case Failure(_) => (false, stored)
    case Success(created) =>
      RecordEventKeepsNoDoubleBooking(stored + [created], created.id, calendar, updateStamp);
      (true, RecordEvent(stored + [created], created.id, calendar, updateStamp))
  }

  /** A creation through the hook keeps a store free of double bookings. */
  lemma StoreAfterCreateKeepsNoDoubleBooking(stored: seq<Appointment>, services: seq<Service>, data: CreateAppointmentRequest,
                                              id: string, timestamp: string, calendar: CalendarResult, updateStamp: string)
    requires NoDoubleBooking(stored)
    ensures NoDoubleBooking(StoreAfterCreate(stored, services, data, id, timestamp, calendar, updateStamp).1)
  {
    match CreateOutcome(stored, services, data, id, timestamp)
    case Failure(_) =>
    case Success(created) =>
      CreateKeepsNoDoubleBooking(stored, services, data, id, timestamp);
      RecordEventKeepsNoDoubleBooking(stored + [created], created.id, calendar, updateStamp);
  }

  /** `[...prev, item].sort(...)`: the shown list after a creation. */
  function WithCreated(shown: seq<Appointment>, item: Appointment): seq<Appointment> {
    Sort(shown + [item], ByDateThenStart)
  }

  /**
   * After a creation the shown list holds the old entries plus the new one,
   * each as often as before, ordered by date and start time.
   */
  lemma WithCreatedSpec(shown: seq<Appointment>, item: Appointment)
    ensures multiset(WithCreated(shown, item)) == multiset(shown) + multiset{item}
    ensures SortedBy(WithCreated(shown, item), ByDateThenStart)
    ensures item in WithCreated(shown, item)
  {
    ByDateThenStartOrders();
    SortSorted(shown + [item], ByDateThenStart);
    assert item in multiset(WithCreated(shown, item));
  }

  class AppointmentsHook {
    const repository: AppointmentStore
    const services: ServiceRepository.ServiceStore
    /** The list on screen. */
    var appointments: seq<Appointment>

    constructor(repository: AppointmentStore, services: ServiceRepository.ServiceStore)
      ensures this.repository == repository && this.services == services && appointments == []
    {
      this.repository := repository;
      this.services := services;
      appointments := [];
    }

    /** `loadAppointments`: the store's `getAll`. */
    method Refresh()
      ensures appointments == AllSorted(repository.appointments)
      modifies this
    {
      appointments := repository.GetAll();
    }

    /**
     * `createAppointment`: creates through the store; a successful calendar
     * result with an event id is recorded in the store and on the answer;
     * the answer joins the shown list in order. A calendar failure never fails
     * the creation. An error the store throws becomes a failure with the
     * conflict message or the generic one, and nothing changes.
     */
    method CreateAppointment(data: CreateAppointmentRequest, calendar: CalendarResult, id: string, timestamp: string, updateStamp: string)
      returns (res: OperationResult<Appointment>)
      modifies this, repository
      ensures var outcome := CreateOutcome(old(repository.appointments), services.services, data, id, timestamp);
        match outcome
        case Failure(e) =>
          && res == OperationResult(false, None, ErrorMessage(e))
          && appointments == old(appointments) && repository.appointments == old(repository.appointments)
        case Success(created) =>
          var item := if RecordedEventId(calendar).Some? then created.(calendarEventId := RecordedEventId(calendar)) else created;
          && res == OperationResult(true, Some(item), CreatedMessage(calendar))
          && appointments == WithCreated(old(appointments), item)
          && repository.appointments == RecordEvent(old(repository.appointments) + [created], created.id, calendar, updateStamp)
      ensures (res.success, repository.appointments)
        == StoreAfterCreate(old(repository.appointments), services.services, data, id, timestamp, calendar, updateStamp)
    {
      var created := repository.Create(data, services, id, timestamp);
      if created.Failure? {
        return OperationResult(false, None, ErrorMessage(created.error));
      }
      var item := created.value;
      var eventId := RecordedEventId(calendar);
      if eventId.Some? {
        var _ := repository.Update(item.id, UpdateAppointmentRequest(eventId), updateStamp);
        item := item.(calendarEventId := eventId);
      }
      appointments := WithCreated(appointments, item);
      res := OperationResult(true, Some(item), CreatedMessage(calendar));
    }

    /**
     * `deleteAppointment`: when the store finds no entry with that id the
     * answer is a failure and the shown list is unchanged; otherwise exactly
     * the entries with that id leave the shown list.
     */
    method DeleteAppointment(id: string) returns (res: OperationResult<()>)
      modifies this, repository
      ensures repository.appointments == WithoutAppointment(old(repository.appointments), id)
      ensures (forall a :: a in old(repository.appointments) ==> a.id != id) ==>
        res == OperationResult(false, None, Constants.APPOINTMENT_ERROR) && appointments == old(appointments)
      ensures (exists a :: a in old(repository.appointments) && a.id == id) ==>
        res == OperationResult(true, None, Constants.APPOINTMENT_DELETED) &&
        appointments == WithoutAppointment(old(appointments), id)
    {
      var deleted := repository.Delete(id);
      if !deleted {
        return OperationResult(false, None, Constants.APPOINTMENT_ERROR);
      }
      appointments := WithoutAppointment(appointments, id);
      res := OperationResult(true, None, Constants.APPOINTMENT_DELETED);
    }
  }
}
