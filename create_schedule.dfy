/**
 * The booking wizard of `src/screens/CreateScheduleScreen.tsx`: five steps
 * (client, service, date, time, confirm) whose React state is the fields of
 * `Wizard`, the fixed-day recurrence expansion, and `handleConfirm`, which
 * books the chosen date and its repetitions one at a time through the
 * appointments hook and counts the successes.
 */
module CreateSchedule {
  import opened Wrappers
  import opened Types
  import opened Text
  import opened AppointmentRepository
  import opened UseAppointments
  import opened Helpers

  datatype Step = ClientStep | ServiceStep | DateStep | TimeStep | ConfirmStep

  /** The step's position in the step indicator. */
  function StepIndex(s: Step): nat {
    match s
    case ClientStep => 0
    case ServiceStep => 1
    case DateStep => 2
    case TimeStep => 3
    case ConfirmStep => 4
  }

  /** Where `handleBack` goes: one step back, staying on the first step. */
  function PreviousStep(s: Step): (r: Step)
    ensures StepIndex(r) == if StepIndex(s) == 0 then 0 else StepIndex(s) - 1
  {
    match s
    case ClientStep => ClientStep
    case ServiceStep => ClientStep
    case DateStep => ServiceStep
    case TimeStep => DateStep
    case ConfirmStep => TimeStep
  }

  /** `RECURRENCE_DAYS`: whole weeks, so "monthly" is 28 days, not a calendar month. */
  function RecurrenceDays(interval: RecurrenceInterval): (days: int)
    ensures days % 7 == 0 && 7 <= days <= 28
    ensures interval == Weekly <==> days == 7
    ensures interval == Biweekly <==> days == 14
    ensures interval == ThreeWeeks <==> days == 21
    ensures interval == Monthly <==> days == 28
  {
    match interval
    case Weekly => 7
    case Biweekly => 14
    case ThreeWeeks => 21
    case Monthly => 28
  }

  /** `recurrenceDates`: the repetitions of the selected date, not the date itself. */
  function RecurrenceDates(selectedDate: Option<Date>, enabled: bool, interval: RecurrenceInterval, count: nat): (r: seq<Date>)
    ensures selectedDate.None? || !enabled ==> r == []
    ensures selectedDate.Some? && enabled ==> |r| == count
  {
    if selectedDate.None? || !enabled then []
    else seq(count, k => selectedDate.value + (k + 1) * RecurrenceDays(interval))
  }

  /**
   * The k-th repetition is `k` intervals after the selected date (k = 1..count),
   * so the list ascends strictly and never contains the selected date.
   */
  lemma RecurrenceDatesSpec(anchor: Date, interval: RecurrenceInterval, count: nat)
    ensures var r := RecurrenceDates(Some(anchor), true, interval, count);
      && (forall k :: 1 <= k <= count ==> r[k - 1] == anchor + k * RecurrenceDays(interval))
      && (forall i, j :: 0 <= i < j < |r| ==> r[i] < r[j])
      && anchor !in r
      && (forall d :: d in r ==> d > anchor)
  {
    var r := RecurrenceDates(Some(anchor), true, interval, count);
    var days := RecurrenceDays(interval);
    forall i, j | 0 <= i < j < |r| ensures r[i] < r[j] {
      assert r[j] - r[i] == (j - i) * days;
      MulAtLeast(days, j - i);
    }
    forall d | d in r ensures d > anchor {
      var k :| 0 <= k < |r| && r[k] == d;
      MulAtLeast(days, k + 1);
    }
  }

  /** 2024-01-01 (day `d`) every two weeks, three times: 01-15, 01-29, 02-12. */
  lemma BiweeklyExample(d: Date)
    ensures RecurrenceDates(Some(d), true, Biweekly, 3) == [d + 14, d + 28, d + 42]
  {
  }

  /** The dates `handleConfirm` books, in order: the selected date, then its repetitions when recurrence is on. */
  function DatesToCreate(anchor: Date, enabled: bool, interval: RecurrenceInterval, count: nat): (r: seq<Date>)
    ensures |r| >= 1 && r[0] == anchor
    ensures !enabled ==> r == [anchor]
    ensures enabled ==> r[1..] == RecurrenceDates(Some(anchor), true, interval, count)
  {
    if enabled then [anchor] + RecurrenceDates(Some(anchor), true, interval, count) else [anchor]
  }

  /** What the world answers to one booking attempt: a fresh id, stamps and the calendar's answer. */
  datatype Attempt = Attempt(id: string, timestamp: string, updateStamp: string, calendar: CalendarResult)

  /**
   * Books `requests` one at a time against the store `stored`, the k-th attempt
   * (counting from `k`) drawing on `env(k)`; a failure is skipped and nothing is
   * rolled back. Answers how many succeeded and the store afterwards.
   */
  function Series(stored: seq<Appointment>, services: seq<Service>, requests: seq<CreateAppointmentRequest>,
                  env: nat -> Attempt, k: nat): (nat, seq<Appointment>)
    decreases |requests|
  {
    if requests == [] then (0, stored)
    else
      var a := env(k);
      var first := StoreAfterCreate(stored, services, requests[0], a.id, a.timestamp, a.calendar, a.updateStamp);
      var rest := Series(first.1, services, requests[1..], env, k + 1);
      (if first.0 then rest.0 + 1 else rest.0, rest.1)
  }

  /** A non-empty series: its first attempt, then the rest of the series. */
  lemma SeriesStep(stored: seq<Appointment>, services: seq<Service>, requests: seq<CreateAppointmentRequest>,
                   env: nat -> Attempt, k: nat)
    requires requests != []
    ensures var a := env(k);
      var first := StoreAfterCreate(stored, services, requests[0], a.id, a.timestamp, a.calendar, a.updateStamp);
      var rest := Series(first.1, services, requests[1..], env, k + 1);
      && Series(stored, services, requests, env, k).0 == (if first.0 then rest.0 + 1 else rest.0)
      && Series(stored, services, requests, env, k).1 == rest.1
  {
  }

  /**
   * A series succeeds at most once per request, grows the store by exactly the
   * number of successes, and keeps a store without double bookings so.
   */
  lemma {:induction false} SeriesSpec(stored: seq<Appointment>, services: seq<Service>, requests: seq<CreateAppointmentRequest>,
                                       env: nat -> Attempt, k: nat)
    ensures var (n, after) := Series(stored, services, requests, env, k);
      && n <= |requests|
      && |after| == |stored| + n
      && (NoDoubleBooking(stored) ==> NoDoubleBooking(after))
    decreases |requests|
  {
    if requests != [] {
      var a := env(k);
      var first := StoreAfterCreate(stored, services, requests[0], a.id, a.timestamp, a.calendar, a.updateStamp);
      if NoDoubleBooking(stored) {
        StoreAfterCreateKeepsNoDoubleBooking(stored, services, requests[0], a.id, a.timestamp, a.calendar, a.updateStamp);
      }
      SeriesSpec(first.1, services, requests[1..], env, k + 1);
    }
  }

  const ENTER_CLIENT: string := "Digite ou selecione uma cliente"
  const FILL_ALL_FIELDS: string := "Preencha todos os campos"
  const NOTHING_CREATED: string := "Não foi possível criar os agendamentos"

  /** The recurrence message: how many bookings were created. */
  function CountMessage(n: nat): (m: string)
    ensures |NatToString(n)| <= |m| && m[..|NatToString(n)|] == NatToString(n)
    ensures ParseNat(m[..|NatToString(n)|]) == Some(n)
  {
    NatToStringRoundTrip(n);
    NatToString(n) + " agendamento(s) criado(s) com sucesso!"
  }

  /**
   * The requests `handleConfirm` sends, one per date and in the dates' order:
   * the trimmed name, the picked client's id, the service, the time, and the
   * series id exactly when recurrence is on.
   */
  function ConfirmRequests(name: string, client: Option<Client>, service: Service, dates: seq<Date>, time: int,
                           groupId: Option<string>): (r: seq<CreateAppointmentRequest>)
    ensures |r| == |dates|
    ensures forall i :: 0 <= i < |r| ==>
      && r[i].date == dates[i] && r[i].clientName == Trim(name)
      && r[i].serviceId == service.id && r[i].startTime == time
      && r[i].recurrenceGroupId == groupId
      && (r[i].clientId.Some? <==> client.Some?)
      && (client.Some? ==> r[i].clientId == Some(client.value.id))
  {
    var clientId := if client.Some? then Some(client.value.id) else None;
    seq(|dates|, i requires 0 <= i < |dates| => CreateAppointmentRequest(Trim(name), clientId, service.id, dates[i], time, groupId))
  }

  /**
   * The loop of `handleConfirm`: each request through the hook in order, the
   * i-th drawing on `env(i)`. The store ends as the series leaves it; the
   * count is the series' count, and the last success message is one the
   * hook gave for some attempt.
   */
  method BookAll(hook: AppointmentsHook, requests: seq<CreateAppointmentRequest>, env: nat -> Attempt)
    returns (successCount: nat, lastMessage: string)
    modifies hook, hook.repository
    ensures successCount == Series(old(hook.repository.appointments), hook.services.services, requests, env, 0).0
    ensures hook.repository.appointments == Series(old(hook.repository.appointments), hook.services.services, requests, env, 0).1
    ensures successCount > 0 ==> exists j :: 0 <= j < |requests| && lastMessage == CreatedMessage(env(j).calendar)
  {
    ghost var start := hook.repository.appointments;
    ghost var services := hook.services.services;
    successCount := 0;
    lastMessage := "";
    var i := 0;
    while i < |requests|
      invariant 0 <= i <= |requests|
      invariant hook.services.services == services
      invariant Series(start, services, requests, env, 0).0
        == successCount + Series(hook.repository.appointments, services, requests[i..], env, i).0
      invariant Series(start, services, requests, env, 0).1
        == Series(hook.repository.appointments, services, requests[i..], env, i).1
      invariant successCount > 0 ==> exists j :: 0 <= j < i && lastMessage == CreatedMessage(env(j).calendar)
    {
      assert requests[i..][0] == requests[i] && requests[i..][1..] == requests[i + 1..];
      SeriesStep(hook.repository.appointments, services, requests[i..], env, i);
      var ok, message := BookOne(hook, requests[i], env(i));
      if ok {
        successCount := successCount + 1;
        lastMessage := message;
      }
      i := i + 1;
    }
  }

  /**
   * The loop of `handleConfirm` and the message it then shows: the count when
   * recurrence is on, the hook's message for a single booking, and a failure
   * message when nothing was booked.
   */
  method BookAndReport(hook: AppointmentsHook, requests: seq<CreateAppointmentRequest>, recurrence: bool, env: nat -> Attempt)
    returns (successCount: nat, message: string)
    requires !recurrence ==> |requests| == 1
    modifies hook, hook.repository
    ensures successCount == Series(old(hook.repository.appointments), hook.services.services, requests, env, 0).0
    ensures hook.repository.appointments == Series(old(hook.repository.appointments), hook.services.services, requests, env, 0).1
    ensures successCount == 0 ==> message == NOTHING_CREATED
    ensures successCount > 0 && recurrence ==> message == CountMessage(successCount)
    ensures successCount > 0 && !recurrence ==> message == CreatedMessage(env(0).calendar)
  {
    var lastMessage;
    successCount, lastMessage := BookAll(hook, requests, env);
    if successCount > 0 && !recurrence {
      ghost var j :| 0 <= j < |requests| && lastMessage == CreatedMessage(env(j).calendar);
      assert j == 0;
    }
    if successCount == 0 {
      message := NOTHING_CREATED;
    } else if recurrence {
      message := CountMessage(successCount);
    } else {
      message := lastMessage;
    }
  }

  /** One pass of the loop: the hook's `createAppointment` with what the world answers. */
  method BookOne(hook: AppointmentsHook, request: CreateAppointmentRequest, a: Attempt) returns (ok: bool, message: string)
    modifies hook, hook.repository
    ensures (ok, hook.repository.appointments)
      == StoreAfterCreate(old(hook.repository.appointments), hook.services.services, request, a.id, a.timestamp, a.calendar, a.updateStamp)
    ensures ok ==> message == CreatedMessage(a.calendar)
  {
    var result := hook.CreateAppointment(request, a.calendar, a.id, a.timestamp, a.updateStamp);
    ok, message := result.success, result.message;
  }

  /** The booking wizard's state. */
  class Wizard {
    var step: Step
    var clientName: string
    var selectedClient: Option<Client>
    var selectedService: Option<Service>
    var selectedDate: Option<Date>
    var selectedTime: Option<int>
    var recurrenceEnabled: bool
    var recurrenceInterval: RecurrenceInterval
    var recurrenceCount: nat
    /** The last message shown, if any. */
    var snackbar: Option<string>

    /** The initial state: first step, nothing chosen, recurrence off, every two weeks, four times. */
    constructor()
      ensures step == ClientStep && clientName == "" && selectedClient.None? && selectedService.None?
      ensures selectedDate.None? && selectedTime.None? && snackbar.None?
      ensures !recurrenceEnabled && recurrenceInterval == Biweekly && recurrenceCount == 4
    {
      step := ClientStep;
      clientName := "";
      selectedClient := None;
      selectedService := None;
      selectedDate := None;
      selectedTime := None;
      recurrenceEnabled := false;
      recurrenceInterval := Biweekly;
      recurrenceCount := 4;
      snackbar := None;
    }

    /** `handleClientNext`: a blank name stays on the step and asks for one. */
    method HandleClientNext()
      modifies this
      ensures clientName == old(clientName) && selectedClient == old(selectedClient)
      ensures selectedService == old(selectedService) && selectedDate == old(selectedDate) && selectedTime == old(selectedTime)
      ensures IsBlank(old(clientName)) ==> step == old(step) && snackbar == Some(ENTER_CLIENT)
      ensures !IsBlank(old(clientName)) ==> step == ServiceStep && snackbar == old(snackbar)
      ensures recurrenceEnabled == old(recurrenceEnabled) && recurrenceInterval == old(recurrenceInterval) && recurrenceCount == old(recurrenceCount)
    {
      if IsBlank(clientName) {
        snackbar := Some(ENTER_CLIENT);
      } else {
        step := ServiceStep;
      }
    }

    /** `handleSelectClient`: the client's name fills the name field. */
    method HandleSelectClient(client: Client)
      modifies this
      ensures selectedClient == Some(client) && clientName == client.name && step == ServiceStep
      ensures selectedService == old(selectedService) && selectedDate == old(selectedDate) && selectedTime == old(selectedTime)
      ensures recurrenceEnabled == old(recurrenceEnabled) && recurrenceInterval == old(recurrenceInterval) && recurrenceCount == old(recurrenceCount)
      ensures snackbar == old(snackbar)
    {
      selectedClient := Some(client);
      clientName := client.name;
      step := ServiceStep;
    }

    /** `handleSelectService`. */
    method HandleSelectService(service: Service)
      modifies this
      ensures selectedService == Some(service) && step == DateStep
      ensures clientName == old(clientName) && selectedClient == old(selectedClient)
      ensures selectedDate == old(selectedDate) && selectedTime == old(selectedTime)
      ensures recurrenceEnabled == old(recurrenceEnabled) && recurrenceInterval == old(recurrenceInterval) && recurrenceCount == old(recurrenceCount)
      ensures snackbar == old(snackbar)
    {
      selectedService := Some(service);
      step := DateStep;
    }

    /** `handleSelectDate`: a new date forgets the time picked for the old one. */
    method HandleSelectDate(date: Date)
      modifies this
      ensures selectedDate == Some(date) && selectedTime.None? && step == TimeStep
      ensures clientName == old(clientName) && selectedClient == old(selectedClient) && selectedService == old(selectedService)
      ensures recurrenceEnabled == old(recurrenceEnabled) && recurrenceInterval == old(recurrenceInterval) && recurrenceCount == old(recurrenceCount)
      ensures snackbar == old(snackbar)
    {
      selectedDate := Some(date);
      selectedTime := None;
      step := TimeStep;
    }

    /** `handleSelectTime`. */
    method HandleSelectTime(time: int)
      modifies this
      ensures selectedTime == Some(time) && step == ConfirmStep
      ensures clientName == old(clientName) && selectedClient == old(selectedClient)
      ensures selectedService == old(selectedService) && selectedDate == old(selectedDate)
      ensures recurrenceEnabled == old(recurrenceEnabled) && recurrenceInterval == old(recurrenceInterval) && recurrenceCount == old(recurrenceCount)
      ensures snackbar == old(snackbar)
    {
      selectedTime := Some(time);
      step := ConfirmStep;
    }

    /**
     * `handleBack`: one step back, forgetting the choice of the step left
     * behind's predecessor (the service when leaving the date step, the date
     * when leaving the time step, the time when leaving the confirmation);
     * nothing happens on the first step.
     */
    method HandleBack()
      modifies this
      ensures step == PreviousStep(old(step))
      ensures selectedService == if old(step) == DateStep then None else old(selectedService)
      ensures selectedDate == if old(step) == TimeStep then None else old(selectedDate)
      ensures selectedTime == if old(step) == ConfirmStep then None else old(selectedTime)
      ensures clientName == old(clientName) && selectedClient == old(selectedClient)
      ensures recurrenceEnabled == old(recurrenceEnabled) && recurrenceInterval == old(recurrenceInterval) && recurrenceCount == old(recurrenceCount)
      ensures snackbar == old(snackbar)
    {
      match step
      case ClientStep =>
      case ServiceStep =>
        step := ClientStep;
      case DateStep =>
        step := ServiceStep;
        selectedService := None;
      case TimeStep =>
        step := DateStep;
        selectedDate := None;
      case ConfirmStep =>
        step := TimeStep;
        selectedTime := None;
    }

    /** Whether `handleConfirm` has everything it needs. */
    predicate Complete()
      reads this
    {
      !IsBlank(clientName) && selectedService.Some? && selectedDate.Some? && selectedTime.Some?
    }

    /** The requests a confirmation sends, `groupId` being the fresh series id. */
    function Requests(groupId: string): seq<CreateAppointmentRequest>
      reads this
      requires Complete()
    {
      ConfirmRequests(clientName, selectedClient, selectedService.value,
        DatesToCreate(selectedDate.value, recurrenceEnabled, recurrenceInterval, recurrenceCount),
        selectedTime.value, if recurrenceEnabled then Some(groupId) else None)
    }

    /**
     * `handleConfirm`: an incomplete form shows 'Preencha todos os campos' and
     * books nothing. Otherwise it books the selected date and, when recurrence
     * is on, each repetition, one at a time through the hook, with the i-th
     * attempt drawing on `env(i)`; failures are skipped. The store ends as the
     * series leaves it and `successCount` is the number of successes. The
     * message is the count when recurrence is on, the hook's own message for
     * a single booking, and 'Não foi possível criar os agendamentos' when
     * nothing was booked.
     */
    method HandleConfirm(hook: AppointmentsHook, groupId: string, env: nat -> Attempt) returns (successCount: nat)
      modifies this, hook, hook.repository
      ensures !old(Complete()) ==>
        && successCount == 0 && snackbar == Some(FILL_ALL_FIELDS)
        && hook.repository.appointments == old(hook.repository.appointments)
      ensures old(Complete()) ==>
        var series := Series(old(hook.repository.appointments), hook.services.services, old(Requests(groupId)), env, 0);
        && successCount == series.0 && hook.repository.appointments == series.1
        && (successCount == 0 ==> snackbar == Some(NOTHING_CREATED))
        && (successCount > 0 && recurrenceEnabled ==> snackbar == Some(CountMessage(successCount)))
        && (successCount > 0 && !recurrenceEnabled ==> snackbar == Some(CreatedMessage(env(0).calendar)))
      ensures step == old(step) && clientName == old(clientName) && selectedService == old(selectedService)
      ensures selectedDate == old(selectedDate) && selectedTime == old(selectedTime)
      ensures selectedClient == old(selectedClient)
      ensures recurrenceEnabled == old(recurrenceEnabled) && recurrenceInterval == old(recurrenceInterval) && recurrenceCount == old(recurrenceCount)
    {
      if !Complete() {
        snackbar := Some(FILL_ALL_FIELDS);
        return 0;
      }
      var requests := Requests(groupId);
      assert !recurrenceEnabled ==> |requests| == 1;
      var message;
      successCount, message := BookAndReport(hook, requests, recurrenceEnabled, env);
      snackbar := Some(message);
    }
  }
}
