/**
 * The entities of the scheduler. Dates are day numbers (consecutive calendar
 * days differ by one), whose numeric order is the order of their ISO
 * `YYYY-MM-DD` strings; times of day are minutes since midnight, as
 * `checkTimeConflict` computes them from the `HH:mm` strings.
 */
module Types {
  import opened Wrappers

  type Date = int

  /** The order `localeCompare` gives two ISO dates. */
  predicate DateLe(a: Date, b: Date) {
    a <= b
  }

  /** A service the salon offers. */
  datatype Service = Service(
    id: string,
    name: string,
    durationMinutes: int,
    createdAt: string,
    updatedAt: string)

  datatype CreateServiceRequest = CreateServiceRequest(name: string, durationMinutes: int)

  /** Absent fields are `None`; given ones replace the stored value. */
  datatype UpdateServiceRequest = UpdateServiceRequest(name: Option<string>, durationMinutes: Option<int>)

  /** A booked appointment; `serviceName` is a snapshot taken when it was created. */
  datatype Appointment = Appointment(
    id: string,
    clientName: string,
    clientId: Option<string>,
    serviceId: string,
    serviceName: string,
    date: Date,
    startTime: int,
    endTime: int,
    recurrenceGroupId: Option<string>,
    calendarEventId: Option<string>,
    createdAt: string,
    updatedAt: string)

  /** What the booking screen submits for one date. */
  datatype CreateAppointmentRequest = CreateAppointmentRequest(
    clientName: string,
    clientId: Option<string>,
    serviceId: string,
    date: Date,
    startTime: int,
    recurrenceGroupId: Option<string>)

  datatype UpdateAppointmentRequest = UpdateAppointmentRequest(calendarEventId: Option<string>)

  /** A candidate start time and whether it is free. */
  datatype TimeSlot = TimeSlot(time: int, available: bool)

  datatype ThemeMode = Light | Dark

  datatype BusinessHours = BusinessHours(start: int, end: int)

  datatype ReminderSettings = ReminderSettings(
    appointmentRemindersEnabled: bool,
    reminderOffset: int,
    dailyMorningReminderEnabled: bool,
    dailyEveningReminderEnabled: bool)

  /**
   * The settings record. `reminderSettings` is `None` in records written by
   * versions of the app that predate reminders.
   */
  datatype AppSettings = AppSettings(
    businessHours: BusinessHours,
    timeSlotInterval: int,
    theme: ThemeMode,
    holidays: seq<Date>,
    reminderSettings: Option<ReminderSettings>,
    createdAt: string,
    updatedAt: string)

  /** A client of the salon, as the clients table returns it. */
  datatype Client = Client(
    id: string,
    name: string,
    phone: Option<string>,
    notes: Option<string>,
    tier: string,
    createdAt: string,
    updatedAt: string)

  datatype RecurrenceInterval = Weekly | Biweekly | ThreeWeeks | Monthly

  /** The `{ success, data?, message }` answer of the hooks. */
  datatype OperationResult<T> = OperationResult(success: bool, data: Option<T>, message: string)
}

/** Values from `src/utils/constants.ts` and the repositories' error strings. */
module Constants {

  /** `BUSINESS_HOURS`: the defaults used when no settings are loaded. */
  const START: int := 8
  const END: int := 18
  const SLOT_INTERVAL: int := 30

  const APPOINTMENT_CREATED: string := "Agendamento realizado com sucesso!"
  const APPOINTMENT_DELETED: string := "Agendamento cancelado com sucesso!"
  const APPOINTMENT_ERROR: string := "Erro ao processar agendamento. Tente novamente."
  const APPOINTMENT_CONFLICT: string := "Este horário já está ocupado. Escolha outro horário."
  const CALENDAR_EVENT_CREATED: string := "Evento adicionado ao Google Agenda!"

  /** Messages of the errors `LocalAppointmentRepository.create` throws. */
  const SERVICE_NOT_FOUND: string := "Serviço não encontrado"
  const TIME_CONFLICT: string := "Conflito de horário"
}
