/**
 * The `useSettings` hook (`src/hooks/useSettings.ts`): the loaded settings
 * (`None` until loaded) and the last error, kept as React state, over the
 * settings store. The hook's callbacks set that state in place.
 */
module UseSettings {
  import opened Wrappers
  import opened Types
  import opened SettingsRepository

  const INVALID_HOURS: string := "Horário inválido"
  const START_NOT_BEFORE_END: string := "Horário de início deve ser menor que horário de fim"
  const HOURS_OUT_OF_RANGE: string := "Horários devem estar entre 0 e 23"
  const UPDATE_FAILED: string := "Erro ao atualizar configurações"
  const ADD_HOLIDAY_FAILED: string := "Erro ao adicionar feriado"
  const REMOVE_HOLIDAY_FAILED: string := "Erro ao remover feriado"
  const REMINDERS_FAILED: string := "Erro ao atualizar lembretes"
  const RESET_FAILED: string := "Erro ao resetar configurações"

  /** The `{ success, data?, error? }` answer of the settings callbacks. */
  datatype SettingsResult = SettingsResult(success: bool, data: Option<AppSettings>, error: Option<string>)

  /**
   * `updateBusinessHours`' guards: the message it shows for a rejected pair.
   * A pair is accepted exactly when `0 <= start < end <= 23`; the order is
   * checked before the range.
   */
  function ValidateBusinessHours(start: int, end: int): (r: Option<string>)
    ensures r.None? <==> 0 <= start < end <= 23
    ensures start >= end ==> r == Some(START_NOT_BEFORE_END)
    ensures start < end && r.Some? ==> r == Some(HOURS_OUT_OF_RANGE)
  {
    if start >= end then Some(START_NOT_BEFORE_END)
    else if start < 0 || start > 23 || end < 0 || end > 23 then Some(HOURS_OUT_OF_RANGE)
    else None
  }

  class SettingsHook {
    const store: SettingsStore
    var settings: Option<AppSettings>
    var error: Option<string>

    constructor(store: SettingsStore)
      ensures this.store == store && settings.None? && error.None?
    {
      this.store := store;
      settings := None;
      error := None;
    }

    /** `isHoliday`: membership in the loaded holidays; false while nothing is loaded. */
    function IsHoliday(date: Date): (b: bool)
      reads this
      ensures b <==> settings.Some? && date in settings.value.holidays
      ensures settings.None? ==> !b
    {
      settings.Some? && date in settings.value.holidays
    }

    /** `loadSettings`: `getSettings` never fails, so the answer is always taken. */
    method LoadSettings(io: Storage)
      modifies this, store
      ensures settings == Some(GetOutcome(old(store.stored), DefaultSettings(store.loadTime), io).0)
      ensures store.stored == GetOutcome(old(store.stored), DefaultSettings(store.loadTime), io).1
      ensures error.None?
    {
      error := None;
      var data := store.GetSettings(io);
      settings := Some(data);
    }

    /**
     * `updateSettings`: on success the written record becomes the state; when
     * the store throws, the answer is a failure and `settings` is unchanged.
     */
    method UpdateSettings(updates: SettingsUpdate, io: Storage, now: string) returns (res: SettingsResult)
      modifies this, store
      ensures var current := GetOutcome(old(store.stored), DefaultSettings(store.loadTime), io).0;
        current.reminderSettings.Some? &&
        if io.canWrite then
          var updated := MergeSettings(current, updates, now);
          res == SettingsResult(true, Some(updated), None) && settings == Some(updated) &&
          store.stored == Some(updated) && error.None?
        else
          res == SettingsResult(false, None, Some(UPDATE_FAILED)) && settings == old(settings) &&
          store.stored == old(store.stored) && error == Some(UPDATE_FAILED)
    {
      error := None;
      var updated := store.UpdateSettings(updates, io, now);
      if updated.None? {
        error := Some(UPDATE_FAILED);
        return SettingsResult(false, None, Some(UPDATE_FAILED));
      }
      settings := updated;
      res := SettingsResult(true, updated, None);
    }

    /**
     * `updateBusinessHours`: a rejected pair answers 'Horário inválido', shows
     * its message and changes nothing else; an accepted one goes through
     * `updateSettings` with the business hours alone.
     */
    method UpdateBusinessHours(start: int, end: int, io: Storage, now: string) returns (res: SettingsResult)
      modifies this, store
      ensures ValidateBusinessHours(start, end).Some? ==>
        && res == SettingsResult(false, None, Some(INVALID_HOURS))
        && error == ValidateBusinessHours(start, end)
        && settings == old(settings) && store.stored == old(store.stored)
      ensures ValidateBusinessHours(start, end).None? ==>
        var current := GetOutcome(old(store.stored), DefaultSettings(store.loadTime), io).0;
        current.reminderSettings.Some? &&
        if io.canWrite then
          var updated := MergeSettings(current, SettingsUpdate(Some(BusinessHours(start, end)), None, None, None, None), now);
          && res == SettingsResult(true, Some(updated), None) && settings == Some(updated)
          && store.stored == Some(updated) && error.None?
          && updated.businessHours == BusinessHours(start, end)
        else
          && res == SettingsResult(false, None, Some(UPDATE_FAILED)) && settings == old(settings)
          && store.stored == old(store.stored) && error == Some(UPDATE_FAILED)
    {
      var invalid := ValidateBusinessHours(start, end);
      if invalid.Some? {
        error := invalid;
        return SettingsResult(false, None, Some(INVALID_HOURS));
      }
      res := UpdateSettings(SettingsUpdate(Some(BusinessHours(start, end)), None, None, None, None), io, now);
    }

    /** `updateTimeSlotInterval`: `updateSettings` with the interval alone. */
    method UpdateTimeSlotInterval(interval: int, io: Storage, now: string) returns (res: SettingsResult)
      modifies this, store
      ensures var current := GetOutcome(old(store.stored), DefaultSettings(store.loadTime), io).0;
        current.reminderSettings.Some? &&
        if io.canWrite then
          var updated := MergeSettings(current, SettingsUpdate(None, Some(interval), None, None, None), now);
          && res == SettingsResult(true, Some(updated), None) && settings == Some(updated)
          && store.stored == Some(updated) && error.None? && updated.timeSlotInterval == interval
        else
          && res == SettingsResult(false, None, Some(UPDATE_FAILED)) && settings == old(settings)
          && store.stored == old(store.stored) && error == Some(UPDATE_FAILED)
    {
      res := UpdateSettings(SettingsUpdate(None, Some(interval), None, None, None), io, now);
    }

    /** `updateTheme`: `updateSettings` with the theme alone. */
    method UpdateTheme(theme: ThemeMode, io: Storage, now: string) returns (res: SettingsResult)
      modifies this, store
      ensures var current := GetOutcome(old(store.stored), DefaultSettings(store.loadTime), io).0;
        current.reminderSettings.Some? &&
        if io.canWrite then
          var updated := MergeSettings(current, SettingsUpdate(None, None, Some(theme), None, None), now);
          && res == SettingsResult(true, Some(updated), None) && settings == Some(updated)
          && store.stored == Some(updated) && error.None? && updated.theme == theme
        else
          && res == SettingsResult(false, None, Some(UPDATE_FAILED)) && settings == old(settings)
          && store.stored == old(store.stored) && error == Some(UPDATE_FAILED)
    {
      res := UpdateSettings(SettingsUpdate(None, None, Some(theme), None, None), io, now);
    }

    /** `updateReminderSettings`: the store's merged record becomes the state; a store error changes nothing. */
    method UpdateReminderSettings(updates: ReminderUpdate, io: Storage, now: string) returns (res: SettingsResult)
      modifies this, store
      ensures var current := GetOutcome(old(store.stored), DefaultSettings(store.loadTime), io).0;
        current.reminderSettings.Some? &&
        if io.canWrite then
          var updated := MergeSettings(current, SettingsUpdate(None, None, None, None, Some(updates)), now);
          && res == SettingsResult(true, Some(updated), None) && settings == Some(updated)
          && store.stored == Some(updated) && error.None?
        else
          res == SettingsResult(false, None, Some(REMINDERS_FAILED)) && settings == old(settings) &&
          store.stored == old(store.stored) && error == Some(REMINDERS_FAILED)
    {
      error := None;
      var updated := store.UpdateReminderSettings(updates, io, now);
      if updated.None? {
        error := Some(REMINDERS_FAILED);
        return SettingsResult(false, None, Some(REMINDERS_FAILED));
      }
      settings := updated;
      res := SettingsResult(true, updated, None);
    }

    /** `resetToDefaults`: the defaults become the state; a store error changes nothing. */
    method ResetToDefaults(io: Storage) returns (res: SettingsResult)
      modifies this, store
      ensures io.canWrite ==>
        && res == SettingsResult(true, Some(DefaultSettings(store.loadTime)), None)
        && settings == Some(DefaultSettings(store.loadTime)) && store.stored == settings && error.None?
      ensures !io.canWrite ==>
        && res == SettingsResult(false, None, Some(RESET_FAILED))
        && settings == old(settings) && store.stored == old(store.stored) && error == Some(RESET_FAILED)
    {
      error := None;
      var defaults := store.ResetToDefaults(io);
      if defaults.None? {
        error := Some(RESET_FAILED);
        return SettingsResult(false, None, Some(RESET_FAILED));
      }
      settings := defaults;
      res := SettingsResult(true, defaults, None);
    }

    /**
     * `addHoliday`: the store's answer becomes the state. A date already listed
     * is answered with the settings as they are; a new one is written with the
     * `WithHoliday` list; a store error is reported and changes nothing.
     */
    method AddHoliday(date: Date, io: Storage, now: string) returns (res: SettingsResult)
      modifies this, store
      ensures var (current, after) := GetOutcome(old(store.stored), DefaultSettings(store.loadTime), io);
        current.reminderSettings.Some? &&
        if date in current.holidays then
          && res == SettingsResult(true, Some(current), None) && settings == Some(current)
          && store.stored == after && error.None?
        else if io.canWrite then
          var updated := MergeSettings(current, SettingsUpdate(None, None, None, Some(WithHoliday(current.holidays, date)), None), now);
          && res == SettingsResult(true, Some(updated), None) && settings == Some(updated)
          && store.stored == Some(updated) && error.None? && date in updated.holidays
        else
          && res == SettingsResult(false, None, Some(ADD_HOLIDAY_FAILED)) && settings == old(settings)
          && store.stored == old(store.stored) && error == Some(ADD_HOLIDAY_FAILED)
    {
      error := None;
      ghost var current := GetOutcome(old(store.stored), DefaultSettings(store.loadTime), io).0;
      var updated := store.AddHoliday(date, io, now);
      if updated.None? {
        error := Some(ADD_HOLIDAY_FAILED);
        return SettingsResult(false, None, Some(ADD_HOLIDAY_FAILED));
      }
      if date !in current.holidays {
        WithHolidayIdempotent(current.holidays, date);
      }
      settings := updated;
      res := SettingsResult(true, updated, None);
    }

    /**
     * `removeHoliday`: the settings written with the `WithoutHoliday` list
     * become the state, so the date is no longer a holiday; a store error
     * is reported and changes nothing.
     */
    method RemoveHoliday(date: Date, io: Storage, now: string) returns (res: SettingsResult)
      modifies this, store
      ensures var current := GetOutcome(old(store.stored), DefaultSettings(store.loadTime), io).0;
        current.reminderSettings.Some? &&
        if io.canWrite then
          var updated := MergeSettings(current, SettingsUpdate(None, None, None, Some(WithoutHoliday(current.holidays, date)), None), now);
          && res == SettingsResult(true, Some(updated), None) && settings == Some(updated)
          && store.stored == Some(updated) && error.None? && !IsHoliday(date)
        else
          && res == SettingsResult(false, None, Some(REMOVE_HOLIDAY_FAILED)) && settings == old(settings)
          && store.stored == old(store.stored) && error == Some(REMOVE_HOLIDAY_FAILED)
    {
      error := None;
      var updated := store.RemoveHoliday(date, io, now);
      if updated.None? {
        error := Some(REMOVE_HOLIDAY_FAILED);
        return SettingsResult(false, None, Some(REMOVE_HOLIDAY_FAILED));
      }
      settings := updated;
      res := SettingsResult(true, updated, None);
    }
  }
}
