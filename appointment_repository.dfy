/**
 * `LocalAppointmentRepository` (`src/services/appointmentRepository.ts`): the
 * persisted list of appointments, the field `appointments`. `create` refuses a
 * booking whose service is unknown or whose interval overlaps a booking of the
 * same date, which keeps the list free of double bookings.
 */
module AppointmentRepository {
  import opened Wrappers
  import opened Types
  import opened Text
  import opened Seqs
  import opened Helpers
  import Constants
  import ServiceRepository

  // ----------------------------------------------------------------- ordering

  /** `getAll`'s comparator: date, then start time (zero-padded text compares as the numbers do). */
  predicate ByDateThenStart(a: Appointment, b: Appointment) {
    a.date < b.date || (a.date == b.date && a.startTime <= b.startTime)
  }

  /** `getByDate`'s comparator: start time. */
  predicate ByStart(a: Appointment, b: Appointment) {
    a.startTime <= b.startTime
  }

  lemma ByDateThenStartOrders()
    ensures TotalPreorder(ByDateThenStart)
  {
  }

  lemma ByStartOrders()
    ensures TotalPreorder(ByStart)
  {
  }

  /** The list `getAll` returns. */
  function AllSorted(appointments: seq<Appointment>): seq<Appointment> {
    Sort(appointments, ByDateThenStart)
  }

  /** `getAll` returns every stored appointment, each as often as stored, ordered by date and start time. */
  lemma AllSortedSpec(appointments: seq<Appointment>)
    ensures multiset(AllSorted(appointments)) == multiset(appointments)
    ensures SortedBy(AllSorted(appointments), ByDateThenStart)
  {
    ByDateThenStartOrders();
    SortSorted(appointments, ByDateThenStart);
  }

  /** The list `getByDate` returns. */
  function ByDate(appointments: seq<Appointment>, date: Date): seq<Appointment> {
    Sort(OnDate(appointments, date), ByStart)
  }

  /** `getByDate` returns exactly the appointments of that date, ordered by start time. */
  lemma ByDateSpec(appointments: seq<Appointment>, date: Date)
    ensures forall a :: a in ByDate(appointments, date) <==> a in appointments && a.date == date
    ensures SortedBy(ByDate(appointments, date), ByStart)
  {
    ByStartOrders();
    SortSorted(OnDate(appointments, date), ByStart);
    SortSameElements(OnDate(appointments, date), ByStart);
  }

  // ------------------------------------------------------------------ lookup

  function IndexOfAppointment(appointments: seq<Appointment>, id: string): int {
    FindIndex(appointments, (a: Appointment) => a.id == id)
  }

  /** `appointments.find(a => a.id === id) || null`: the first appointment with that id. */
  function FindAppointment(appointments: seq<Appointment>, id: string): (r: Option<Appointment>)
    ensures r.None? <==> forall a :: a in appointments ==> a.id != id
    ensures r.Some? ==> r.value in appointments && r.value.id == id
    ensures r.Some? ==> exists i :: 0 <= i < |appointments| && appointments[i] == r.value &&
                                    forall j :: 0 <= j < i ==> appointments[j].id != id
  {
    var k := IndexOfAppointment(appointments, id);
    if k < 0 then None else Some(appointments[k])
  }

  // ---------------------------------------------------------------- conflicts

  /**
   * The list `hasConflict` tests: the appointments of the date, without those
   * whose id is `excludeId`. An empty `excludeId` is falsy and excludes nothing.
   */
  function Candidates(appointments: seq<Appointment>, date: Date, excludeId: Option<string>): seq<Appointment> {
    var sameDate := ByDate(appointments, date);
    if excludeId.Some? && excludeId.value != "" then Filter(sameDate, (a: Appointment) => a.id != excludeId.value)
    else sameDate
  }

  /** Whether `excludeId` rules out appointment `a`. */
  predicate Excluded(a: Appointment, excludeId: Option<string>) {
    excludeId.Some? && excludeId.value != "" && a.id == excludeId.value
  }

  function HasConflict(appointments: seq<Appointment>, date: Date, startTime: int, endTime: int, excludeId: Option<string>): bool {
    CheckTimeConflict(startTime, endTime, Candidates(appointments, date, excludeId))
  }

  /**
   * `hasConflict` holds exactly when some stored appointment of that date, not
   * excluded by id, overlaps `[startTime, endTime)`.
   */
  lemma HasConflictSpec(appointments: seq<Appointment>, date: Date, startTime: int, endTime: int, excludeId: Option<string>)
    ensures HasConflict(appointments, date, startTime, endTime, excludeId) <==>
      exists a :: a in appointments && a.date == date && !Excluded(a, excludeId) && Overlaps(startTime, endTime, a)
  {
    var c := Candidates(appointments, date, excludeId);
    CheckTimeConflictSpec(startTime, endTime, c);
    ByDateSpec(appointments, date);
    assert forall a :: a in c <==> a in appointments && a.date == date && !Excluded(a, excludeId);
    if HasConflict(appointments, date, startTime, endTime, excludeId) {
      var i :| 0 <= i < |c| && Overlaps(startTime, endTime, c[i]);
      assert c[i] in c;
    } else {
      forall a | a in appointments && a.date == date && !Excluded(a, excludeId)
        ensures !Overlaps(startTime, endTime, a)
      {
        assert a in c;
        var i :| 0 <= i < |c| && c[i] == a;
      }
    }
  }

  /** Two appointments can share the list: different dates, or intervals that do not overlap. */
  predicate Compatible(a: Appointment, b: Appointment) {
    a.date != b.date || !Overlaps(a.startTime, a.endTime, b)
  }

  /** No two appointments of the same date overlap. */
  predicate NoDoubleBooking(appointments: seq<Appointment>) {
    Pairwise(appointments, Compatible)
  }

  // ------------------------------------------------------------------- create

  /**
   * The appointment `create` stores: only the listed fields of the request;
   * a client id or recurrence group id in the request is not stored.
   */
  function NewAppointment(data: CreateAppointmentRequest, service: Service, id: string, timestamp: string): Appointment {
    Appointment(
      id, Trim(data.clientName), None, data.serviceId, service.name, data.date,
      data.startTime, CalculateEndTime(data.startTime, service.durationMinutes),
      None, None, timestamp, timestamp)
  }

  /** What `create` answers: the new appointment, or the message of the error it throws. */
  function CreateOutcome(appointments: seq<Appointment>, services: seq<Service>, data: CreateAppointmentRequest, id: string, timestamp: string): Result<Appointment, string> {
    match ServiceRepository.FindService(services, data.serviceId)
    case None => Failure(Constants.SERVICE_NOT_FOUND)
    case Some(service) =>
      var endTime := CalculateEndTime(data.startTime, service.durationMinutes);
      if HasConflict(appointments, data.date, data.startTime, endTime, None) then Failure(Constants.TIME_CONFLICT)
      else Success(NewAppointment(data, service, id, timestamp))
  }

  /** `create` fails with 'Serviço não encontrado' exactly when no service has the requested id. */
  lemma CreateUnknownService(appointments: seq<Appointment>, services: seq<Service>, data: CreateAppointmentRequest, id: string, timestamp: string)
    ensures CreateOutcome(appointments, services, data, id, timestamp) == Failure(Constants.SERVICE_NOT_FOUND) <==>
      forall s :: s in services ==> s.id != data.serviceId
  {
  }

  /**
   * Once the service `s` is found, `create` fails with 'Conflito de horário'
   * exactly when the booking would overlap an appointment of the same date,
   * and succeeds otherwise.
   */
  lemma CreateConflict(appointments: seq<Appointment>, services: seq<Service>, data: CreateAppointmentRequest, id: string, timestamp: string, s: Service)
    requires ServiceRepository.FindService(services, data.serviceId) == Some(s)
    ensures var r := CreateOutcome(appointments, services, data, id, timestamp);
      && (r == Failure(Constants.TIME_CONFLICT) <==>
            exists a :: a in appointments && a.date == data.date &&
              Overlaps(data.startTime, CalculateEndTime(data.startTime, s.durationMinutes), a))
      && (r.Failure? ==> r == Failure(Constants.TIME_CONFLICT))
  {
    HasConflictSpec(appointments, data.date, data.startTime, CalculateEndTime(data.startTime, s.durationMinutes), None);
  }

  /**
   * A booking `create` accepts has the requested client name (trimmed), date
   * and start, the name of the service `getById` finds, the end time
   * `calculateEndTime` gives for that service's duration (a time of day, so
   * `durationMinutes` later modulo a day), both stamps equal, and no client,
   * recurrence group or calendar event.
   */
  lemma CreatedFields(appointments: seq<Appointment>, services: seq<Service>, data: CreateAppointmentRequest, id: string, timestamp: string)
    requires CreateOutcome(appointments, services, data, id, timestamp).Success?
    ensures ServiceRepository.FindService(services, data.serviceId).Some?
    ensures var a := CreateOutcome(appointments, services, data, id, timestamp).value;
      var s := ServiceRepository.FindService(services, data.serviceId).value;
      && a.id == id && a.clientName == Trim(data.clientName) && a.serviceId == data.serviceId
      && a.date == data.date && a.startTime == data.startTime
      && a.serviceName == s.name
      && a.endTime == CalculateEndTime(data.startTime, s.durationMinutes)
      && 0 <= a.endTime < MINUTES_PER_DAY
      && (a.startTime + s.durationMinutes - a.endTime) % MINUTES_PER_DAY == 0
      && a.clientId.None? && a.recurrenceGroupId.None? && a.calendarEventId.None?
      && a.createdAt == a.updatedAt == timestamp
  {
    var s := ServiceRepository.FindService(services, data.serviceId).value;
    EndTimeWraps(data.startTime, s.durationMinutes);
  }

  /** A successful `create` keeps the list free of double bookings. */
  lemma CreateKeepsNoDoubleBooking(appointments: seq<Appointment>, services: seq<Service>, data: CreateAppointmentRequest, id: string, timestamp: string)
    requires NoDoubleBooking(appointments)
    requires CreateOutcome(appointments, services, data, id, timestamp).Success?
    ensures NoDoubleBooking(appointments + [CreateOutcome(appointments, services, data, id, timestamp).value])
  {
    var n := CreateOutcome(appointments, services, data, id, timestamp).value;
    var s := ServiceRepository.FindService(services, data.serviceId).value;
    HasConflictSpec(appointments, data.date, data.startTime, n.endTime, None);
    var r := appointments + [n];
    forall i, j | 0 <= i < j < |r| ensures Compatible(r[i], r[j]) {
      if j == |appointments| {
        var a := r[i];
        assert a in appointments;
        if a.date == n.date {
          assert !Overlaps(n.startTime, n.endTime, a);
          OverlapSymmetric(n.startTime, n.endTime, a.startTime, a.endTime);
        }
      }
    }
  }

  // ------------------------------------------------- bookings across midnight

  /**
   * As written, the conflict test runs on the wrapped end time: a 120-minute
   * booking at 23:00 is stored as ending at 01:00 (minute 60), and is accepted
   * beside an existing 23:30-23:45 booking of the same date, which its real
   * interval 23:00-01:00 covers. The stored list still counts as free of
   * double bookings.
   */
  lemma WrappedBookingCounterexample()
    ensures var existing := Appointment("a1", "Ana", None, "s1", "Escova", 0, 1410, 1425, None, None, "t", "t");
      var services := [Service("s1", "Escova", 120, "t", "t")];
      var data := CreateAppointmentRequest("Bia", None, "s1", 0, 1380, None);
      var r := CreateOutcome([existing], services, data, "a2", "t");
      && r.Success? && r.value.endTime == 60
      && NoDoubleBooking([existing, r.value])
      && IntervalsOverlap(data.startTime, data.startTime + 120, existing.startTime, existing.endTime)
  {
    var existing := Appointment("a1", "Ana", None, "s1", "Escova", 0, 1410, 1425, None, None, "t", "t");
    HasConflictSpec([existing], 0, 1380, 60, None);
    assert !Overlaps(1380, 60, existing);
  }

  /** A stored interval that is the booking's real one: it starts and ends within one day, in order. */
  predicate WithinDay(a: Appointment) {
    0 <= a.startTime <= a.endTime < MINUTES_PER_DAY
  }

  /**
   * `create` with the guard the wrap calls for: a booking that would not end
   * before midnight is refused (with the conflict message); otherwise `create`
   * as written.
   */
  function CorrectedCreateOutcome(appointments: seq<Appointment>, services: seq<Service>, data: CreateAppointmentRequest, id: string, timestamp: string): Result<Appointment, string> {
    match ServiceRepository.FindService(services, data.serviceId)
    case None => Failure(Constants.SERVICE_NOT_FOUND)
    case Some(service) =>
      if 0 <= data.startTime && 0 <= service.durationMinutes && data.startTime + service.durationMinutes < MINUTES_PER_DAY
      then CreateOutcome(appointments, services, data, id, timestamp)
      else Failure(Constants.TIME_CONFLICT)
  }

  /**
   * Under the corrected guard a booking is stored with its real end, start
   * plus duration, within the day; its real interval overlaps no booking of
   * the same date; and a list whose bookings all lie within the day and do not
   * overlap stays so.
   */
  lemma CorrectedCreateNoOverlap(appointments: seq<Appointment>, services: seq<Service>, data: CreateAppointmentRequest, id: string, timestamp: string)
    requires NoDoubleBooking(appointments) && forall a :: a in appointments ==> WithinDay(a)
    requires CorrectedCreateOutcome(appointments, services, data, id, timestamp).Success?
    ensures ServiceRepository.FindService(services, data.serviceId).Some?
    ensures var n := CorrectedCreateOutcome(appointments, services, data, id, timestamp).value;
      var s := ServiceRepository.FindService(services, data.serviceId).value;
      && n.endTime == n.startTime + s.durationMinutes && WithinDay(n)
      && (forall a :: a in appointments && a.date == n.date ==>
            !IntervalsOverlap(n.startTime, n.startTime + s.durationMinutes, a.startTime, a.endTime))
      && NoDoubleBooking(appointments + [n])
      && forall a :: a in appointments + [n] ==> WithinDay(a)
  {
    var s := ServiceRepository.FindService(services, data.serviceId).value;
    var n := CreateOutcome(appointments, services, data, id, timestamp).value;
    EndTimeWraps(data.startTime, s.durationMinutes);
    HasConflictSpec(appointments, data.date, data.startTime, n.endTime, None);
    CreateKeepsNoDoubleBooking(appointments, services, data, id, timestamp);
  }

  /** The corrected guard refuses the booking of `WrappedBookingCounterexample`. */
  lemma CorrectedRefusesWrappedBooking()
    ensures var existing := Appointment("a1", "Ana", None, "s1", "Escova", 0, 1410, 1425, None, None, "t", "t");
      var services := [Service("s1", "Escova", 120, "t", "t")];
      var data := CreateAppointmentRequest("Bia", None, "s1", 0, 1380, None);
      CorrectedCreateOutcome([existing], services, data, "a2", "t") == Failure(Constants.TIME_CONFLICT)
  {
  }

  // ------------------------------------------------------------ update/delete

  /** The entry `update` writes: a given calendar event id replaces the old one, and the stamp is refreshed. */
  function UpdatedAppointment(current: Appointment, data: UpdateAppointmentRequest, timestamp: string): Appointment {
    current.(calendarEventId := if data.calendarEventId.Some? then data.calendarEventId else current.calendarEventId,
             updatedAt := timestamp)
  }

  /** `update` changes only the calendar event id and the update stamp. */
  lemma UpdatedAppointmentKeepsBooking(current: Appointment, data: UpdateAppointmentRequest, timestamp: string)
    ensures var r := UpdatedAppointment(current, data, timestamp);
      && r.(calendarEventId := current.calendarEventId, updatedAt := current.updatedAt) == current
      && (data.calendarEventId.None? ==> r.calendarEventId == current.calendarEventId)
      && (data.calendarEventId.Some? ==> r.calendarEventId == data.calendarEventId)
      && r.updatedAt == timestamp
  {
  }

  /** Replacing an entry by its update keeps the list free of double bookings. */
  lemma UpdateKeepsNoDoubleBooking(appointments: seq<Appointment>, k: int, data: UpdateAppointmentRequest, timestamp: string)
    requires 0 <= k < |appointments| && NoDoubleBooking(appointments)
    ensures NoDoubleBooking(appointments[k := UpdatedAppointment(appointments[k], data, timestamp)])
  {
    var r := appointments[k := UpdatedAppointment(appointments[k], data, timestamp)];
    forall i, j | 0 <= i < j < |r| ensures Compatible(r[i], r[j]) {
      assert Compatible(appointments[i], appointments[j]);
    }
  }

  /** `appointments.filter(a => a.id !== id)`. */
  function WithoutAppointment(appointments: seq<Appointment>, id: string): (r: seq<Appointment>)
    ensures forall a :: a in r <==> a in appointments && a.id != id
  {
    Filter(appointments, (a: Appointment) => a.id != id)
  }

  /** Deleting keeps the list free of double bookings, and keeps the other entries in order. */
  lemma DeleteKeepsNoDoubleBooking(appointments: seq<Appointment>, id: string)
    requires NoDoubleBooking(appointments)
    ensures NoDoubleBooking(WithoutAppointment(appointments, id))
  {
    FilterPairwise(appointments, (a: Appointment) => a.id != id, Compatible);
  }

  // -------------------------------------------------------------------- store

  class AppointmentStore {
    /** The persisted appointment list, in insertion order. */
    var appointments: seq<Appointment>

    constructor()
      ensures appointments == []
    {
      appointments := [];
    }

    method GetAll() returns (r: seq<Appointment>)
      ensures r == AllSorted(appointments)
    {
      r := AllSorted(appointments);
    }

    method GetById(id: string) returns (r: Option<Appointment>)
      ensures r == FindAppointment(appointments, id)
    {
      r := FindAppointment(appointments, id);
    }

    method GetByDate(date: Date) returns (r: seq<Appointment>)
      ensures r == ByDate(appointments, date)
    {
      r := ByDate(appointments, date);
    }

    method CheckConflict(date: Date, startTime: int, endTime: int, excludeId: Option<string>) returns (conflict: bool)
      ensures conflict == HasConflict(appointments, date, startTime, endTime, excludeId)
    {
      conflict := HasConflict(appointments, date, startTime, endTime, excludeId);
    }

    /**
     * Looks the service up in `services`, refuses an unknown service or a
     * clash, and otherwise appends exactly one appointment at the end; on an
     * error the list is unchanged. A list without double bookings stays so.
     */
    method Create(data: CreateAppointmentRequest, services: ServiceRepository.ServiceStore, id: string, timestamp: string)
      returns (r: Result<Appointment, string>)
      modifies this
      ensures r == CreateOutcome(old(appointments), services.services, data, id, timestamp)
      ensures r.Success? ==> appointments == old(appointments) + [r.value]
      ensures r.Failure? ==> appointments == old(appointments)
      ensures NoDoubleBooking(old(appointments)) ==> NoDoubleBooking(appointments)
    {
      var service := services.GetById(data.serviceId);
      if service.None? {
        return Failure(Constants.SERVICE_NOT_FOUND);
      }
      var endTime := CalculateEndTime(data.startTime, service.value.durationMinutes);
      var conflict := CheckConflict(data.date, data.startTime, endTime, None);
      if conflict {
        return Failure(Constants.TIME_CONFLICT);
      }
      var created := NewAppointment(data, service.value, id, timestamp);
      if NoDoubleBooking(appointments) {
        CreateKeepsNoDoubleBooking(appointments, services.services, data, id, timestamp);
      }
      appointments := appointments + [created];
      r := Success(created);
    }

    /** Replaces the first entry with id `id` by its update; with no such entry answers `None` and writes nothing. */
    method Update(id: string, data: UpdateAppointmentRequest, timestamp: string) returns (r: Option<Appointment>)
      modifies this
      ensures IndexOfAppointment(old(appointments), id) == -1 ==> r.None? && appointments == old(appointments)
      ensures var k := IndexOfAppointment(old(appointments), id);
        k != -1 ==>
          && r == Some(UpdatedAppointment(old(appointments)[k], data, timestamp))
          && appointments == old(appointments)[k := r.value]
      ensures NoDoubleBooking(old(appointments)) ==> NoDoubleBooking(appointments)
    {
      var index := IndexOfAppointment(appointments, id);
      if index == -1 {
        return None;
      }
      var updated := UpdatedAppointment(appointments[index], data, timestamp);
      if NoDoubleBooking(appointments) {
        UpdateKeepsNoDoubleBooking(appointments, index, data, timestamp);
      }
      appointments := appointments[index := updated];
      r := Some(updated);
    }

    /** Removes every entry with id `id`, answering whether there was one; with none it writes nothing. */
    method Delete(id: string) returns (deleted: bool)
      modifies this
      ensures deleted <==> exists a :: a in old(appointments) && a.id == id
      ensures appointments == WithoutAppointment(old(appointments), id)
      ensures NoDoubleBooking(old(appointments)) ==> NoDoubleBooking(appointments)
    {
      var filtered := WithoutAppointment(appointments, id);
      if |filtered| == |appointments| {
        return false;
      }
      if NoDoubleBooking(appointments) {
        DeleteKeepsNoDoubleBooking(appointments, id);
      }
      appointments := filtered;
      deleted := true;
    }
  }
}
