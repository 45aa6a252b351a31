# Salon scheduler core, in Dafny

This project models the booking engine of the "nails" salon scheduler (a React Native app written in TypeScript), together with the small stores and the list logic around it:

- time-of-day arithmetic;
- the half-open overlap test;
- the two slot generators;
- the appointment, service, client and settings stores;
- the `useAppointments` and `useSettings` hooks;
- the five-step booking wizard with its recurrence expansion and series-creation loop;
- the list logic of `TimeSlotPicker` and of the agenda screen.

Everything is sequential and deterministic once ids, timestamps, "today" and the answers of the device calendar and storage are passed in as parameters.

Representation choices:

- Dates are day numbers (`Types.Date`), whose numeric order is the order of their ISO `YYYY-MM-DD` strings.
- Times of day are minutes since midnight. `Helpers.FormatTime`/`Helpers.ParseTime` give the `HH:mm` text form, with round-trip and order lemmas. Those lemmas are why comparing `HH:mm` strings with `localeCompare` orders them as times.

Form of the model:

- A store whose methods rewrite its persisted list is a class whose methods update a `seq` field. These are `AppointmentStore`, `ServiceStore` and `ClientStore` (the SQL `clients` table as the sequence of its rows), and `SettingsStore` (the stored settings record).
- The hooks and the wizard are classes whose fields are the React state.
- Loops in the source are `while` loops proved against specification functions: the two slot generators, the rows-of-four chunking, the grouping by date and the series-creation loop.
- The pure parts are functions, with lemmas stating what they promise. These are the overlap test, `calculateEndTime`, `formatDuration`, the merge and normalisation rules, the recurrence dates and the filters.

Each module follows one source file:

| module | file |
|---|---|
| `Helpers` | `src/utils/helpers.ts` (time arithmetic, the overlap test, `formatDuration`) |
| `Slots` | `src/utils/helpers.ts` (the slot generators) |
| `AppointmentRepository` | `src/services/appointmentRepository.ts` |
| `ServiceRepository` | `src/services/serviceRepository.ts` |
| `ClientRepository` | `src/services/clientRepository.ts` |
| `SettingsRepository` | `src/services/settingsRepository.ts` |
| `UseSettings` | `src/hooks/useSettings.ts` |
| `UseAppointments` | `src/hooks/useAppointments.ts` |
| `CreateSchedule` | `src/screens/CreateScheduleScreen.tsx` |
| `TimeSlotPicker` | `src/components/TimeSlotPicker.tsx` |
| `ScheduleScreen` | `src/screens/ScheduleScreen.tsx` |

Shared modules:

- `Types` and `Constants`: the entities and the app's constant strings and hours.
- `Text`: `trim`, decimal rendering and code-unit order.
- `Seqs`: filter, insertion sort, flatten.
- `Wrappers`: `Option` and `Result`.

Behaviour that a reader might expect but that the code does not have, and that the model follows the code in:

- **Slot spacing.** Slots are not spaced exactly one interval apart. The code restarts the minute loop at :00 every hour, so a 45-minute interval gives 08:00, 08:45, 09:00 (`Slots.UnevenGrid`).
- **Ends past midnight.** A booking whose end crosses midnight is not rejected. The code wraps the end time past midnight (`Helpers.EndTimeWraps`); see "Findings".
- **Stored fields.** An appointment does not read back equal to what was submitted. The code's `create` does not store the request's client id or recurrence group id (`AppointmentRepository.CreatedFields`).
- **Client table.** The table is modelled as a sequence of rows with unique ids (the SQL primary key), not as a map. This keeps `ORDER BY` and `LIKE` results as lists.

## Model

| member | source | states |
|---|---|---|
| Helpers.TimeRoundTrip | src/utils/helpers.ts:138 | Parsing the zero-padded `HH:mm` text of a time of day gives back that minute count |
| Helpers.FormatParsedTime | src/utils/helpers.ts:65 | Formatting the minute count of a well-formed `HH:mm` string gives back the string |
| Helpers.FormatTimeOrder | src/services/appointmentRepository.ts:46 | `HH:mm` strings compare as text exactly as their times compare as numbers, so sorting by `startTime.localeCompare` sorts by time |
| Helpers.EndTimeWraps | src/utils/helpers.ts:64-69 | `calculateEndTime` is start plus duration modulo 24 hours, and equals start plus duration when that stays within the day |
| Helpers.CalculateEndTimeText | src/utils/helpers.ts:64-69 | The `HH:mm` end time parses to (start + duration) mod 1440 |
| Helpers.EndTimeOfZeroDuration | src/utils/helpers.ts:64-69 | A zero duration returns the input `HH:mm` unchanged |
| Helpers.CheckTimeConflictSpec | src/utils/helpers.ts:163-182 | `checkTimeConflict` is true iff some listed appointment has newStart < aEnd and newEnd > aStart; an empty list gives false |
| Helpers.OverlapSymmetric | src/utils/helpers.ts:180 | The overlap test does not depend on which interval is the new one |
| Helpers.ConflictExamples | src/utils/helpers.ts:180 | Against 10:00–11:00, 09:00–10:00 and 11:00–12:00 are free (touching endpoints) and 10:30–11:00 conflicts |
| Helpers.OnDate | src/utils/helpers.ts:133 | The day's appointments are exactly the listed ones with that date |
| Helpers.DurationRoundTrip | src/utils/helpers.ts:49-59 | `formatDuration` writes `N min` below an hour, `Hh` for whole hours and `Hh Mmin` otherwise; reading each shape back gives the minutes |
| Helpers.ShortDurationRoundTrip | src/utils/helpers.ts:50-52 | Below 60 minutes the text is `N min` and reads back as N |
| Helpers.WholeHoursRoundTrip | src/utils/helpers.ts:53-56 | A whole number of hours is written `Hh` and reads back |
| Helpers.HoursAndMinutesRoundTrip | src/utils/helpers.ts:53-58 | Hours with a remainder are written `Hh Mmin` and read back |
| Slots.ClosingTest | src/utils/helpers.ts:141-145 | The loops' hour/minute skip test keeps a candidate exactly when its end time of day is at or before closing (start minute instead of end minute for the legacy generator) |
| Slots.Candidate | src/utils/helpers.ts:138-153 | One pass of the inner loop yields a slot exactly when the candidate fits before closing, and that slot is the candidate's time with `available` the negated conflict test |
| Slots.HourSlots | src/utils/helpers.ts:137-154 | The inner minute loop builds exactly the specified row of one hour |
| Slots.DaySlots | src/utils/helpers.ts:136-155 | The outer hour loop builds exactly the specified day |
| Slots.DaySpec | src/utils/helpers.ts:136-153 | The walk's slots ascend strictly; each is the slot of a grid point (hour in business hours, minute a multiple of the interval) that the closing test keeps; every such point is listed |
| Slots.DayExactly | src/utils/helpers.ts:136-153 | A slot is listed for a time exactly when that time is a kept grid point |
| Slots.SlotAvailability | src/utils/helpers.ts:148-152 | A slot is free exactly when no appointment of that date overlaps it |
| Slots.GenerateTimeSlotsWithSettings | src/utils/helpers.ts:114-158 | The method returns the specified slot list of `generateTimeSlotsWithSettings` |
| Slots.TimeSlotsWithSettingsSpec | src/utils/helpers.ts:122-153 | Empty on a holiday; otherwise ascending, using the settings' hours and interval (8/18/30 without settings), listing exactly the kept grid points, each free iff no same-date appointment overlaps |
| Slots.SettingsListed | src/utils/helpers.ts:136-153 | Off holidays, a time is listed exactly when the settings grid keeps it |
| Slots.FreeSlotHasNoConflict | src/utils/helpers.ts:133 | A listed slot is free iff it conflicts with no appointment of its date, so a free slot overlaps none of them |
| Slots.FreeWhenNoAppointments | src/utils/helpers.ts:148-152 | With no appointments every slot is free |
| Slots.FreeSlotListed | src/utils/helpers.ts:136-153 | With no appointments a time is listed, as free, exactly when its grid point is kept |
| Slots.DefaultHoursLastSlot | src/utils/helpers.ts:123-145 | Default hours 8–18, interval 30, 60-minute service: 17:00 is offered (ends at 18:00) and 17:30 is not |
| Slots.UnevenGrid | src/utils/helpers.ts:137 | With a 45-minute interval, 08:00, 08:45 and 09:00 are offered and 09:30 is not: the grid restarts each hour |
| Slots.EndMinuteSlotsEndByClosing | src/utils/helpers.ts:141-145 | Every slot of the settings-driven grid ends, as a time of day, at or before closing |
| Slots.GenerateTimeSlots | src/utils/helpers.ts:75-109 | The legacy method returns the specified legacy slot list (constant hours, no holiday check) |
| Slots.LegacyTimeSlotsSpec | src/utils/helpers.ts:80-106 | The legacy list ascends and lists exactly the grid points its start-minute closing test keeps |
| Slots.LegacyClosingCounterexample | src/utils/helpers.ts:94 | The legacy generator offers 17:00 for a 75-minute service, which ends at 18:15, after closing |
| Slots.SettingsSlotsEndByClosing | src/utils/helpers.ts:141-145 | The end-minute test never offers a slot whose end time of day is after closing |
| Slots.MidnightWrapCounterexample | src/utils/helpers.ts:139-145 | With hours 20–23 a 120-minute service is offered at 22:30, though it runs until 00:30 |
| Slots.WithinDaySlotsEndByClosing | src/utils/helpers.ts:141-145 | Under the corrected closing rule every slot starts in business hours and start + duration is at most closing |
| Slots.CorrectedSlotsEndByClosing | src/utils/helpers.ts:139-145 | The corrected generator only offers slots whose start + duration is at most closing, and whose end time does not wrap when hours end before midnight |
| Slots.CorrectedDropsWrappedSlot | src/utils/helpers.ts:139-145 | The corrected generator does not offer the 22:30 slot the wrap let through |
| AppointmentRepository.ByDateThenStartOrders | src/services/appointmentRepository.ts:43-47 | The `getAll` comparator (date, then start time) is a total preorder |
| AppointmentRepository.ByStartOrders | src/services/appointmentRepository.ts:59 | The `getByDate` comparator is a total preorder |
| AppointmentRepository.AllSortedSpec | src/services/appointmentRepository.ts:40-48 | `getAll` returns every stored appointment as often as stored, ordered by date then start time |
| AppointmentRepository.ByDateSpec | src/services/appointmentRepository.ts:55-60 | `getByDate` returns exactly the appointments of that date, ordered by start time |
| AppointmentRepository.FindAppointment | src/services/appointmentRepository.ts:50-53 | `getById` is absent iff no entry has the id; otherwise it is the first entry with that id |
| AppointmentRepository.HasConflictSpec | src/services/appointmentRepository.ts:62-74 | `hasConflict` holds iff some appointment of that date, other than the excluded id, overlaps the interval |
| AppointmentRepository.CreateUnknownService | src/services/appointmentRepository.ts:80-83 | `create` fails with 'Serviço não encontrado' iff no service has the requested id |
| AppointmentRepository.CreateConflict | src/services/appointmentRepository.ts:85-91 | Once the service is found, `create` fails with 'Conflito de horário' iff the computed interval overlaps a same-date appointment; there is no other failure |
| AppointmentRepository.CreatedFields | src/services/appointmentRepository.ts:93-105 | The service exists. The stored booking has the fresh id, the trimmed client name, the request's service id, date and start time, and that service's name. Its end is `calculateEndTime` of the start and that service's duration: within the day and equal to start plus duration modulo a day. createdAt == updatedAt. Client id, group id and calendar event are absent |
| AppointmentRepository.CreateKeepsNoDoubleBooking | src/services/appointmentRepository.ts:88-107 | Appending what `create` accepts keeps a list free of same-date appointments whose stored start and end overlap. A booking across midnight is stored with its wrapped end, which this test does not catch; see Findings |
| AppointmentRepository.WrappedBookingCounterexample | src/services/appointmentRepository.ts:85-91 | As written, a 120-minute booking at 23:00 beside a 23:30–23:45 one of the same date is accepted with end 01:00, and the two still count as not double-booked although the real intervals overlap |
| AppointmentRepository.CorrectedCreateNoOverlap | src/services/appointmentRepository.ts:85-91 | With the guard that refuses a booking not ending before midnight, the stored end is start plus duration within the day, the real interval overlaps no same-date booking, and in-day, overlap-free lists stay so |
| AppointmentRepository.CorrectedRefusesWrappedBooking | src/services/appointmentRepository.ts:85-91 | The corrected guard refuses the booking of the counterexample with 'Conflito de horário' |
| AppointmentRepository.UpdatedAppointmentKeepsBooking | src/services/appointmentRepository.ts:121-125 | `update` changes only the calendar event id (when given) and refreshes `updatedAt` |
| AppointmentRepository.UpdateKeepsNoDoubleBooking | src/services/appointmentRepository.ts:121-127 | Replacing an entry by its update keeps the list free of double bookings |
| AppointmentRepository.WithoutAppointment | src/services/appointmentRepository.ts:135 | The filtered list holds exactly the entries whose id differs |
| AppointmentRepository.DeleteKeepsNoDoubleBooking | src/services/appointmentRepository.ts:133-143 | Deleting keeps the list free of double bookings |
| AppointmentRepository.AppointmentStore.GetAll | src/services/appointmentRepository.ts:40-48 | Answers the sorted list of `AllSortedSpec` |
| AppointmentRepository.AppointmentStore.GetById | src/services/appointmentRepository.ts:50-53 | Answers the lookup of `FindAppointment` |
| AppointmentRepository.AppointmentStore.GetByDate | src/services/appointmentRepository.ts:55-60 | Answers the day's list of `ByDateSpec` |
| AppointmentRepository.AppointmentStore.CheckConflict | src/services/appointmentRepository.ts:62-74 | Answers the test of `HasConflictSpec` |
| AppointmentRepository.AppointmentStore.Create | src/services/appointmentRepository.ts:76-111 | Answers the outcome above; on success appends exactly that appointment at the end, on failure leaves the list unchanged; keeps the list free of double bookings |
| AppointmentRepository.AppointmentStore.Update | src/services/appointmentRepository.ts:113-131 | Absent id: `None` and no write; otherwise only the first entry with the id is replaced by its update; no double booking appears |
| AppointmentRepository.AppointmentStore.Delete | src/services/appointmentRepository.ts:133-143 | Answers true iff some entry had the id; every such entry is removed and the others keep their order |
| ServiceRepository.FindService | src/services/serviceRepository.ts:40-43 | `getById` is the first service with the id, or absent iff none has it |
| ServiceRepository.UpdatedServiceFields | src/services/serviceRepository.ts:71-76 | A missing or blank new name keeps the old one, otherwise the trimmed name is stored. A given duration is stored and a missing one keeps the old. Id and createdAt are kept and updatedAt is refreshed |
| ServiceRepository.WithoutService | src/services/serviceRepository.ts:86 | The filtered list holds exactly the services whose id differs |
| ServiceRepository.ServiceStore.GetAll | src/services/serviceRepository.ts:36-38 | Answers the stored list |
| ServiceRepository.ServiceStore.GetById | src/services/serviceRepository.ts:40-43 | Answers `FindService` on the stored list |
| ServiceRepository.ServiceStore.Create | src/services/serviceRepository.ts:45-61 | Appends exactly one service, with the fresh id, trimmed name, given duration and createdAt == updatedAt |
| ServiceRepository.ServiceStore.Update | src/services/serviceRepository.ts:63-82 | Absent id: `None` and no write; otherwise the entry at the found index becomes its update and every other entry is unchanged |
| ServiceRepository.ServiceStore.Delete | src/services/serviceRepository.ts:84-94 | Answers true iff the id was present; the list becomes the others |
| ClientRepository.RowToClient | src/services/clientRepository.ts:19-29 | Copies every column; a NULL phone or notes becomes absent |
| ClientRepository.RowRoundTrip | src/services/clientRepository.ts:19-29 | Writing a client as a row and reading it back gives the client, and conversely |
| ClientRepository.Normalised | src/services/clientRepository.ts:61-62 | `value?.trim() \|\| undefined`: absent iff missing or blank, otherwise the trimmed, non-empty value |
| ClientRepository.NormalisedIdempotent | src/services/clientRepository.ts:61-62 | Normalising twice is normalising once |
| ClientRepository.NewClient | src/services/clientRepository.ts:56-66 | The created client has the trimmed name and normalised phone and notes. Its tier defaults to 'regular', and createdAt == updatedAt |
| ClientRepository.UpdatedClient | src/services/clientRepository.ts:89-96 | A given name is trimmed and a given phone or notes normalised; a given tier replaces the old one; what is not given is kept; id and createdAt are kept and updatedAt is refreshed |
| ClientRepository.EmptyUpdate | src/services/clientRepository.ts:89-96 | An update giving nothing changes only `updatedAt` |
| ClientRepository.ByNameOrders | src/services/clientRepository.ts:34 | `ORDER BY name` as code-unit order is a total preorder |
| ClientRepository.Clients | src/services/clientRepository.ts:36 | `rows.map(rowToClient)`: one client per row, in order |
| ClientRepository.AllByNameSpec | src/services/clientRepository.ts:32-37 | `getAll` lists every row once, as a client, ordered by name |
| ClientRepository.FoldAscii | src/services/clientRepository.ts:50 | Each character is replaced by its ASCII-lowered form: same length, character by character, and no upper-case ASCII letter is left |
| ClientRepository.SearchResultSpec | src/services/clientRepository.ts:47-54 | A blank query answers `getAll`; otherwise exactly the clients whose name contains the trimmed query, ordered by name |
| ClientRepository.LikeExamples | src/services/clientRepository.ts:50-51 | Every name matches the empty pattern and matches itself |
| ClientRepository.WithoutClient | src/services/clientRepository.ts:115 | Deleting leaves exactly the rows with another id |
| ClientRepository.WithoutClientUnique | src/database/database.ts:19 | Deleting keeps the primary key unique |
| ClientRepository.Rewritten | src/services/clientRepository.ts:98-109 | `UPDATE ... WHERE id = ?` rewrites every row with the id and keeps the others |
| ClientRepository.RewrittenUnique | src/services/clientRepository.ts:98-109 | With unique ids the update rewrites exactly the row found, and ids stay unique |
| ClientRepository.ClientStore.GetAll | src/services/clientRepository.ts:32-37 | Answers the list of `AllByNameSpec` |
| ClientRepository.ClientStore.GetById | src/services/clientRepository.ts:39-45 | Absent iff no row has the id; otherwise the client of a row with that id |
| ClientRepository.ClientStore.Search | src/services/clientRepository.ts:47-54 | Answers the list of `SearchResultSpec` |
| ClientRepository.ClientStore.Create | src/services/clientRepository.ts:56-83 | Appends the row of the normalised client and answers it; an id already present breaks the primary key and nothing is written; ids stay unique |
| ClientRepository.ClientStore.Update | src/services/clientRepository.ts:85-112 | Absent id: `None` and no write; otherwise the row with the id is rewritten with the updated client, and every other row is left as it was; ids stay unique |
| ClientRepository.ClientStore.Delete | src/services/clientRepository.ts:114-117 | Answers true iff a row had the id; those rows are gone and the others keep their order |
| SettingsRepository.DefaultSettings | src/services/settingsRepository.ts:13-29 | Default hours 8–18, interval 30, light theme, no holidays |
| SettingsRepository.GetOutcomeSpec | src/services/settingsRepository.ts:39-64 | With nothing stored the defaults are answered (and persisted when writable). A record without reminders gets the default reminders with every other field kept. A storage error yields the defaults, including a failed write of the migrated record. The answer always has reminders |
| SettingsRepository.MergeSettingsSpec | src/services/settingsRepository.ts:69-86 | Each given top-level field (hours, interval, theme, holidays) is stored and each absent one kept. Each of the four reminder fields is taken from the update when given and kept otherwise. createdAt is kept and updatedAt refreshed. An empty update changes only the stamp, and merging twice is merging once |
| SettingsRepository.WithoutHoliday | src/services/settingsRepository.ts:126 | The filtered list holds exactly the other dates |
| SettingsRepository.WithHolidayNew | src/services/settingsRepository.ts:112-113 | A new date is stored as sort(old ++ [date]): the old dates plus the date once, ascending, still without repeats |
| SettingsRepository.WithHolidayIdempotent | src/services/settingsRepository.ts:107-113 | Adding a holiday is idempotent and the date is then a holiday |
| SettingsRepository.WithoutHolidaySpec | src/services/settingsRepository.ts:123-127 | Removing drops every occurrence, is idempotent, and leaves a list without the date as it was |
| SettingsRepository.RemoveAfterAdd | src/services/settingsRepository.ts:103-127 | Removing a date just added gives back the old dates |
| SettingsRepository.SettingsStore.GetSettings | src/services/settingsRepository.ts:39-64 | Answers and stores what `GetOutcomeSpec` describes |
| SettingsRepository.SettingsStore.UpdateSettings | src/services/settingsRepository.ts:69-91 | Writes and answers the merge over what `getSettings` answers; a write error propagates and leaves the record as it was |
| SettingsRepository.SettingsStore.UpdateReminderSettings | src/services/settingsRepository.ts:96-98 | `updateSettings` with only the reminder part |
| SettingsRepository.SettingsStore.AddHoliday | src/services/settingsRepository.ts:103-118 | A present date is answered unchanged without writing; a new one is written as the sorted list through `updateSettings` |
| SettingsRepository.SettingsStore.RemoveHoliday | src/services/settingsRepository.ts:123-132 | Writes the list without the date through `updateSettings` |
| SettingsRepository.SettingsStore.IsHoliday | src/services/settingsRepository.ts:137-145 | Membership in the holidays `getSettings` answers |
| SettingsRepository.SettingsStore.ResetToDefaults | src/services/settingsRepository.ts:150-158 | Writes and answers the defaults; a write error propagates |
| UseSettings.ValidateBusinessHours | src/hooks/useSettings.ts:54-62 | A pair is accepted iff 0 ≤ start < end ≤ 23; the order is checked first, then the range |
| UseSettings.SettingsHook.IsHoliday | src/hooks/useSettings.ts:115-117 | Membership in the loaded holidays; false while nothing is loaded |
| UseSettings.SettingsHook.LoadSettings | src/hooks/useSettings.ts:21-33 | The state becomes what `getSettings` answers and the error is cleared |
| UseSettings.SettingsHook.UpdateSettings | src/hooks/useSettings.ts:38-49 | On success the merged record becomes the state. When the store throws, the answer is a failure and `settings` and the record are unchanged |
| UseSettings.SettingsHook.UpdateBusinessHours | src/hooks/useSettings.ts:54-64 | A rejected pair answers 'Horário inválido', sets its message and changes nothing. A valid pair goes through `updateSettings` with the business hours alone: on success the merged record, whose business hours are the pair, becomes the state and the stored record and the error is cleared; when the store throws, 'Erro ao atualizar configurações' and nothing changes |
| UseSettings.SettingsHook.UpdateTimeSlotInterval | src/hooks/useSettings.ts:69-71 | On success the merged record, whose interval is the given one, becomes the state and the stored record and the error is cleared; when the store throws, 'Erro ao atualizar configurações' and nothing changes |
| UseSettings.SettingsHook.UpdateTheme | src/hooks/useSettings.ts:76-78 | On success the merged record, whose theme is the given one, becomes the state and the stored record and the error is cleared; when the store throws, 'Erro ao atualizar configurações' and nothing changes |
| UseSettings.SettingsHook.AddHoliday | src/hooks/useSettings.ts:83-94 | A date already listed: the settings as `getSettings` answers them become the state, with no write. A new date: the record merged with the `WithHoliday` list becomes the state and the stored record, and the date is a holiday. The error is cleared on success; when the store throws, 'Erro ao adicionar feriado' and nothing changes |
| UseSettings.SettingsHook.RemoveHoliday | src/hooks/useSettings.ts:99-110 | On success the record merged with the `WithoutHoliday` list becomes the state and the stored record, the error is cleared and the date is no longer a holiday; when the store throws, 'Erro ao remover feriado' and nothing changes |
| UseSettings.SettingsHook.UpdateReminderSettings | src/hooks/useSettings.ts:122-133 | On success the record with the merged reminders becomes the state and the stored record and the error is cleared; when the store throws, 'Erro ao atualizar lembretes' and nothing changes |
| UseSettings.SettingsHook.ResetToDefaults | src/hooks/useSettings.ts:138-149 | The defaults become the state and the record; a store error is reported and changes nothing |
| UseAppointments.RecordedEventId | src/hooks/useAppointments.ts:53-58 | A calendar event id is recorded iff the calendar succeeded with a (non-empty) event id |
| UseAppointments.CreatedMessage | src/hooks/useAppointments.ts:66-68 | The calendar sentence is added to the success message iff the calendar succeeded |
| UseAppointments.ErrorMessage | src/hooks/useAppointments.ts:77-79 | 'Conflito de horário' maps to the conflict message, anything else to the generic error |
| UseAppointments.RecordEventKeepsNoDoubleBooking | src/hooks/useAppointments.ts:53-56 | Recording the event id keeps the store's length and its freedom from double bookings |
| UseAppointments.StoreAfterCreate | src/hooks/useAppointments.ts:44-85 | A creation succeeds iff the store's `create` does; a failure leaves the store unchanged and a success grows it by one |
| UseAppointments.StoreAfterCreateKeepsNoDoubleBooking | src/hooks/useAppointments.ts:44-85 | A creation through the hook keeps the store free of same-date bookings whose stored start and end overlap (a booking across midnight is stored with its wrapped end; see Findings) |
| UseAppointments.WithCreatedSpec | src/hooks/useAppointments.ts:60-64 | The shown list after a creation is the old list plus the new item, as a multiset, sorted by date then start time |
| UseAppointments.AppointmentsHook.Refresh | src/hooks/useAppointments.ts:26-38 | The shown list becomes the store's `getAll` |
| UseAppointments.AppointmentsHook.CreateAppointment | src/hooks/useAppointments.ts:44-85 | A store error answers failure with the mapped message and changes nothing. A success records the event id, adds the item to the shown list in order and answers the calendar-dependent message |
| UseAppointments.AppointmentsHook.DeleteAppointment | src/hooks/useAppointments.ts:87-117 | When the store finds no entry: failure with the error message and the shown list unchanged. Otherwise exactly the entries with the id leave the shown list |
| CreateSchedule.PreviousStep | src/screens/CreateScheduleScreen.tsx:178-196 | Back moves one step toward the first and stays on the first |
| CreateSchedule.RecurrenceDays | src/screens/CreateScheduleScreen.tsx:49-54 | Whole weeks from 7 to 28 days: weekly iff 7, every two weeks iff 14, every three weeks iff 21, monthly iff 28 (not a calendar month) |
| CreateSchedule.RecurrenceDates | src/screens/CreateScheduleScreen.tsx:132-138 | Empty without a selected date or with recurrence off; otherwise exactly `recurrenceCount` dates |
| CreateSchedule.RecurrenceDatesSpec | src/screens/CreateScheduleScreen.tsx:134-137 | The k-th date is anchor + k·days for k = 1..count; the list ascends strictly and excludes the anchor |
| CreateSchedule.BiweeklyExample | src/screens/CreateScheduleScreen.tsx:134-137 | 2024-01-01, biweekly, 3 gives 01-15, 01-29, 02-12 (days +14, +28, +42) |
| CreateSchedule.DatesToCreate | src/screens/CreateScheduleScreen.tsx:206-208 | The selected date first, then its repetitions when recurrence is on, else the date alone |
| CreateSchedule.SeriesSpec | src/screens/CreateScheduleScreen.tsx:210-226 | Successes are at most the attempts; the store grows by exactly the successes (no rollback); a store without double bookings stays so |
| CreateSchedule.CountMessage | src/screens/CreateScheduleScreen.tsx:230 | The message starts with the decimal count, which reads back as the count |
| CreateSchedule.ConfirmRequests | src/screens/CreateScheduleScreen.tsx:213-221 | One request per date in order, with the trimmed name, the picked client's id iff a client was picked, the service, the time and the group id |
| CreateSchedule.BookOne | src/screens/CreateScheduleScreen.tsx:214-225 | One pass leaves the store as `StoreAfterCreate` says and, on success, carries the hook's message |
| CreateSchedule.BookAll | src/screens/CreateScheduleScreen.tsx:210-226 | The loop's count and final store are those of the series; the last message is the hook's message of a successful attempt |
| CreateSchedule.BookAndReport | src/screens/CreateScheduleScreen.tsx:210-236 | After the loop: the count message when recurrence is on, the hook's message for a single booking, 'Não foi possível criar os agendamentos' when nothing was booked |
| CreateSchedule.Wizard.constructor | src/screens/CreateScheduleScreen.tsx:64-76 | First step, nothing chosen, recurrence off, biweekly, 4 times |
| CreateSchedule.Wizard.HandleClientNext | src/screens/CreateScheduleScreen.tsx:147-153 | A blank name stays and asks for a client; otherwise moves to the service step. The choices and the recurrence settings are unchanged |
| CreateSchedule.Wizard.HandleSelectClient | src/screens/CreateScheduleScreen.tsx:155-160 | The client is picked, its name fills the field, and the service step follows. The other choices, the recurrence settings and the message are unchanged |
| CreateSchedule.Wizard.HandleSelectService | src/screens/CreateScheduleScreen.tsx:162-165 | The service is picked and the date step follows. The other choices, the recurrence settings and the message are unchanged |
| CreateSchedule.Wizard.HandleSelectDate | src/screens/CreateScheduleScreen.tsx:167-171 | The date is picked, the time cleared, and the time step follows. The other choices, the recurrence settings and the message are unchanged |
| CreateSchedule.Wizard.HandleSelectTime | src/screens/CreateScheduleScreen.tsx:173-176 | The time is picked and the confirm step follows. The other choices, the recurrence settings and the message are unchanged |
| CreateSchedule.Wizard.HandleBack | src/screens/CreateScheduleScreen.tsx:178-196 | service→client; date→service clearing the service; time→date clearing the date; confirm→time clearing the time; nothing on client. The name, client, recurrence settings and message are unchanged |
| CreateSchedule.Wizard.HandleConfirm | src/screens/CreateScheduleScreen.tsx:198-240 | An incomplete form shows 'Preencha todos os campos' and books nothing. Otherwise the dates are booked in order, failures skipped; the count and the store are the series', and the snackbar follows `BookAndReport`. The form's fields are unchanged |
| TimeSlotPicker.AvailableSlots | src/components/TimeSlotPicker.tsx:22 | Exactly the free slots, each as often as it is given and no taken one, in the given order: slots listed in time order stay in time order |
| TimeSlotPicker.UnavailableCount | src/components/TimeSlotPicker.tsx:23 | The number of taken slots; taken plus offered is all slots |
| TimeSlotPicker.NoteShownIffTaken | src/components/TimeSlotPicker.tsx:43 | The taken-slots note shows iff some slot is taken |
| TimeSlotPicker.BuildRows | src/components/TimeSlotPicker.tsx:35-39 | The rows concatenate back to the offered slots. Every row but the last has 4 slots and the last has 1–4. There are ⌈n/4⌉ rows, and none iff no slot is offered |
| TimeSlotPicker.Render | src/components/TimeSlotPicker.tsx:22-43 | The empty state iff nothing is offered; otherwise the rows of the offered slots and the taken count |
| ScheduleScreen.FilteredAppointments | src/screens/ScheduleScreen.tsx:51-60 | 'today' keeps exactly date == today; 'upcoming' exactly date ≥ today; 'all' is the list unchanged |
| ScheduleScreen.GroupingPartition | src/screens/ScheduleScreen.tsx:63-70 | In a grouping each filtered appointment is in exactly one section, and sections hold nothing else |
| ScheduleScreen.AscendingUnique | src/screens/ScheduleScreen.tsx:72-73 | Two strictly ascending key lists with the same keys are equal |
| ScheduleScreen.GroupingUnique | src/screens/ScheduleScreen.tsx:62-78 | The sections of a filtered list are determined by it |
| ScheduleScreen.GroupByDate | src/screens/ScheduleScreen.tsx:63-70 | The `forEach` gives each date seen one key, holding that date's appointments in input order |
| ScheduleScreen.SortedKeys | src/screens/ScheduleScreen.tsx:72-73 | Sorting the keys gives the same dates strictly ascending |
| ScheduleScreen.ListSections | src/screens/ScheduleScreen.tsx:74-77 | One section per sorted key, titled 'Hoje' for today |
| ScheduleScreen.ListedSectionsGroup | src/screens/ScheduleScreen.tsx:62-78 | The listed sections are a grouping |
| ScheduleScreen.BuildSections | src/screens/ScheduleScreen.tsx:62-78 | Sections are strictly ascending by date and non-empty. Each holds exactly its date's appointments in input order and is titled 'Hoje' iff its date is today. Every filtered appointment's date has a section |
| Text.TrimIdempotent | src/services/clientRepository.ts:60 | `trim` applied twice is `trim` applied once |
| Text.NatToStringRoundTrip | src/screens/CreateScheduleScreen.tsx:230 | The decimal text of a count reads back as the count |
| Text.LexLeOrders | src/screens/ScheduleScreen.tsx:73 | Code-unit order of strings (`localeCompare` on ISO text) is total and transitive |

## Left out

- Persistence I/O: AsyncStorage and the SQLite database are not modelled. The stores keep their data in fields. Settings storage failures are the `Storage` parameter.
- SQL `LIKE` semantics beyond ASCII case folding: `%` and `_` inside the query are not wildcards in the model. Collation is plain code-unit order.
- The device calendar (`createCalendarEvent`, `deleteCalendarEvent`): its answer is a parameter. Deleting a calendar event before an appointment is deleted is not modelled.
- Notifications and reminder scheduling: foreign device APIs.
- `generateId`, `getCurrentTimestamp`, `getTodayISO`, `isDateValid`, `formatDate` and the clock: ids, timestamps and "today" are parameters.
- dayjs local time and daylight saving inside `calculateEndTime`: modelled as minute arithmetic modulo 1440.
- `formatDateLong`: a section title other than 'Hoje' is `LongDate(date)`, without the weekday and month names.
- The recurrence dates are day numbers plus multiples of 7. dayjs calendar arithmetic on ISO strings is not modelled.
- React rendering, styles, navigation, the `setTimeout` navigation after a booking, snackbar visibility timing and the `loading` flags.
- The wizard's client suggestions effect, its `availableDates` list and its `timeSlots` memo (which calls the slot generator).
- Async interleaving: every await is an ordinary sequential call.
- Attendance status and calendar-month recurrence: the code has neither.
- Slots.TimeSlotsWithSettings: requires a positive slot interval, because the source's minute loop never ends otherwise.
- Slots.GenerateTimeSlots: the legacy generator's constant interval is positive, so it needs no such requirement.
- AppointmentRepository.Candidates: an empty `excludeId` is treated as absent, as JavaScript truthiness does.
- UseAppointments.RecordedEventId: an empty calendar event id is not recorded, as JavaScript truthiness does.
- AppointmentRepository.AppointmentStore.Create: storage read/write failures of the appointment list are not modelled; only the two errors `create` throws itself are.
- UseAppointments.AppointmentsHook.DeleteAppointment: a store error other than "not found" is not modelled.
- CreateSchedule.Wizard.HandleConfirm: does not state the hook's shown list after the series; only the store, the count and the message are stated.
- UseSettings.SettingsHook.LoadSettings: the 'Erro ao carregar configurações' branch is not modelled, because `getSettings` never throws.
- ServiceRepository.UpdatedService: an explicitly `undefined` duration in the spread `...data` is read as "not given".
- ClientRepository.UpdatedClient: a given name is trimmed even when that leaves it empty, as the code does.

## Findings

| source | as written | input that shows it | evidently intended | confidence | as-written member | corrected member |
|---|---|---|---|---|---|---|
| src/utils/helpers.ts:94 | The legacy generator's closing test looks at the candidate's start minute instead of the end minute | default hours 8–18, interval 30, a 75-minute service: 17:00 is offered though it ends at 18:15 | Test the end minute, as `generateTimeSlotsWithSettings` does at line 143 | not executed | Slots.LegacyClosingCounterexample | Slots.SettingsSlotsEndByClosing |
| src/utils/helpers.ts:139-145 | The closing test reads the hour of the end time of day, which wraps past midnight | business hours 20–23, interval 30, a 120-minute service: 22:30 is offered though it runs until 00:30 | Compare start + duration with closing, so that no booking runs past closing or midnight | not executed | Slots.MidnightWrapCounterexample | Slots.CorrectedSlotsEndByClosing |
| src/services/appointmentRepository.ts:85-91 | The conflict test of `create` runs on the wrapped end time, so a booking past midnight has an end before its start and overlaps nothing | an existing 23:30–23:45 booking, and a 120-minute service booked at 23:00 on the same date: accepted, stored with end 01:00 | Refuse a booking that does not end before midnight, so the stored interval is the real one and the test sees it | not executed | AppointmentRepository.WrappedBookingCounterexample | AppointmentRepository.CorrectedCreateNoOverlap |

The generators elsewhere in the model (`Slots.TimeSlotsWithSettings`, `Slots.LegacyTimeSlots`) keep the behaviour as written, because both behaviours are those of the running app. The corrected generator is `Slots.CorrectedTimeSlots`, with its property proved by `Slots.CorrectedSlotsEndByClosing` and `Slots.CorrectedDropsWrappedSlot`. Likewise `AppointmentRepository.CreateOutcome` and the store's `Create` keep the wrapped end as written; the corrected guard is `AppointmentRepository.CorrectedCreateOutcome`, with its property proved by `AppointmentRepository.CorrectedCreateNoOverlap` and `AppointmentRepository.CorrectedRefusesWrappedBooking`.
