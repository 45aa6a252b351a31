/**
 * `LocalSettingsRepository` (`src/services/settingsRepository.ts`): one
 * settings record kept in device storage, the field `stored`. Every call may
 * find storage readable or not and writable or not (the `Storage` parameter);
 * `getSettings` swallows storage errors and answers the defaults, the other
 * writers propagate them (`None` here).
 */
module SettingsRepository {
  import opened Wrappers
  import opened Types
  import opened Seqs
  import Constants

  /** Whether device storage reads and writes succeed during one call. */
  datatype Storage = Storage(canRead: bool, canWrite: bool)

  /** Reminder fields an update may carry; absent ones keep their value. */
  datatype ReminderUpdate = ReminderUpdate(
    appointmentRemindersEnabled: Option<bool>,
    reminderOffset: Option<int>,
    dailyMorningReminderEnabled: Option<bool>,
    dailyEveningReminderEnabled: Option<bool>)

  /** `UpdateSettingsDTO`, plus the reminder part `updateReminderSettings` sends. */
  datatype SettingsUpdate = SettingsUpdate(
    businessHours: Option<BusinessHours>,
    timeSlotInterval: Option<int>,
    theme: Option<ThemeMode>,
    holidays: Option<seq<Date>>,
    reminderSettings: Option<ReminderUpdate>)

  const DEFAULT_REMINDERS: ReminderSettings := ReminderSettings(false, 30, false, false)

  /** `DEFAULT_SETTINGS`, whose two stamps are the time the module was loaded. */
  function DefaultSettings(loadTime: string): (r: AppSettings)
    ensures r.businessHours == BusinessHours(Constants.START, Constants.END)
    ensures r.timeSlotInterval == Constants.SLOT_INTERVAL && r.theme == Light && r.holidays == []
  {
    AppSettings(BusinessHours(8, 18), 30, Light, [], Some(DEFAULT_REMINDERS), loadTime, loadTime)
  }

  /** A record written before reminders existed, given the default reminders. */
  function Migrated(s: AppSettings): AppSettings {
    s.(reminderSettings := Some(DEFAULT_REMINDERS))
  }

  /** What `getSettings` answers, and what is stored afterwards. */
  function GetOutcome(stored: Option<AppSettings>, defaults: AppSettings, io: Storage): (AppSettings, Option<AppSettings>) {
    if !io.canRead then (defaults, stored)
    else match stored
      case None => if io.canWrite then (defaults, Some(defaults)) else (defaults, stored)
      case Some(s) =>
        if s.reminderSettings.Some? then (s, stored)
        else if io.canWrite then (Migrated(s), Some(Migrated(s)))
        else (defaults, stored)
  }

  /**
   * `getSettings`: with nothing stored the defaults are answered and, when
   * storage is writable, persisted; a record without reminders is answered
   * with the default reminders and every other field kept, and persisted so;
   * any storage error yields the defaults. Whatever is answered has reminders,
   * and a stored record that has them is answered unchanged.
   */
  lemma GetOutcomeSpec(stored: Option<AppSettings>, defaults: AppSettings, io: Storage)
    requires defaults.reminderSettings.Some?
    ensures var (r, after) := GetOutcome(stored, defaults, io);
      && r.reminderSettings.Some?
      && (stored.None? ==> r == defaults && (io.canRead && io.canWrite ==> after == Some(defaults)))
      && (stored.Some? && io.canRead && stored.value.reminderSettings.Some? ==> r == stored.value && after == stored)
      && (stored.Some? && io.canRead && io.canWrite && stored.value.reminderSettings.None? ==>
            r.(reminderSettings := None) == stored.value && r.reminderSettings == Some(DEFAULT_REMINDERS) && after == Some(r))
      && (stored.Some? && io.canRead && !io.canWrite && stored.value.reminderSettings.None? ==>
            r == defaults && after == stored)
      && (!io.canRead ==> r == defaults)
      && (after == stored || (io.canWrite && after == Some(r)))
  {
  }

  /** `{ ...current, ...updates }` for the reminder fields. */
  function MergeReminders(current: ReminderSettings, u: ReminderUpdate): ReminderSettings {
    ReminderSettings(
      if u.appointmentRemindersEnabled.Some? then u.appointmentRemindersEnabled.value else current.appointmentRemindersEnabled,
      if u.reminderOffset.Some? then u.reminderOffset.value else current.reminderOffset,
      if u.dailyMorningReminderEnabled.Some? then u.dailyMorningReminderEnabled.value else current.dailyMorningReminderEnabled,
      if u.dailyEveningReminderEnabled.Some? then u.dailyEveningReminderEnabled.value else current.dailyEveningReminderEnabled)
  }

  /** The record `updateSettings` writes over `current` (always a record `getSettings` answered). */
  function MergeSettings(current: AppSettings, u: SettingsUpdate, now: string): AppSettings
    requires current.reminderSettings.Some?
  {
    AppSettings(
      if u.businessHours.Some? then u.businessHours.value else current.businessHours,
      if u.timeSlotInterval.Some? then u.timeSlotInterval.value else current.timeSlotInterval,
      if u.theme.Some? then u.theme.value else current.theme,
      if u.holidays.Some? then u.holidays.value else current.holidays,
      if u.reminderSettings.Some? then Some(MergeReminders(current.reminderSettings.value, u.reminderSettings.value))
      else current.reminderSettings,
      current.createdAt,
      now)
  }

  /** The update that changes nothing. */
  const NO_UPDATE: SettingsUpdate := SettingsUpdate(None, None, None, None, None)

  /**
   * `updateSettings` overwrites the given top-level fields and merges the
   * reminder fields one by one; everything not given is kept, the creation
   * stamp too, and the update stamp is refreshed. Merging an empty update
   * changes only the stamp, and merging the same update twice is merging it once.
   */
  lemma MergeSettingsSpec(current: AppSettings, u: SettingsUpdate, now: string)
    requires current.reminderSettings.Some?
    ensures var r := MergeSettings(current, u, now);
      && r.createdAt == current.createdAt && r.updatedAt == now && r.reminderSettings.Some?
      && (u.businessHours.None? ==> r.businessHours == current.businessHours)
      && (u.businessHours.Some? ==> r.businessHours == u.businessHours.value)
      && (u.timeSlotInterval.None? ==> r.timeSlotInterval == current.timeSlotInterval)
      && (u.timeSlotInterval.Some? ==> r.timeSlotInterval == u.timeSlotInterval.value)
      && (u.theme.None? ==> r.theme == current.theme)
      && (u.theme.Some? ==> r.theme == u.theme.value)
      && (u.holidays.None? ==> r.holidays == current.holidays)
      && (u.holidays.Some? ==> r.holidays == u.holidays.value)
      && (u.reminderSettings.None? ==> r.reminderSettings == current.reminderSettings)
      && (u.reminderSettings.Some? ==>
            var c, ru, rr := current.reminderSettings.value, u.reminderSettings.value, r.reminderSettings.value;
            && (ru.appointmentRemindersEnabled.Some? ==> rr.appointmentRemindersEnabled == ru.appointmentRemindersEnabled.value)
            && (ru.appointmentRemindersEnabled.None? ==> rr.appointmentRemindersEnabled == c.appointmentRemindersEnabled)
            && (ru.reminderOffset.Some? ==> rr.reminderOffset == ru.reminderOffset.value)
            && (ru.reminderOffset.None? ==> rr.reminderOffset == c.reminderOffset)
            && (ru.dailyMorningReminderEnabled.Some? ==> rr.dailyMorningReminderEnabled == ru.dailyMorningReminderEnabled.value)
            && (ru.dailyMorningReminderEnabled.None? ==> rr.dailyMorningReminderEnabled == c.dailyMorningReminderEnabled)
            && (ru.dailyEveningReminderEnabled.Some? ==> rr.dailyEveningReminderEnabled == ru.dailyEveningReminderEnabled.value)
            && (ru.dailyEveningReminderEnabled.None? ==> rr.dailyEveningReminderEnabled == c.dailyEveningReminderEnabled))
      && MergeSettings(current, NO_UPDATE, now) == current.(updatedAt := now)
      && MergeSettings(r, u, now) == r
  {
  }

  // ---------------------------------------------------------------- holidays

  /** The holiday list `addHoliday` ends with. */
  function WithHoliday(holidays: seq<Date>, date: Date): seq<Date> {
    if date in holidays then holidays else Sort(holidays + [date], DateLe)
  }

  /** The holiday list `removeHoliday` writes. */
  function WithoutHoliday(holidays: seq<Date>, date: Date): (r: seq<Date>)
    ensures forall d :: d in r <==> d in holidays && d != date
  {
    Filter(holidays, (d: Date) => d != date)
  }

  /**
   * Adding a new date stores the old dates plus that date once, in ascending
   * order; a list without repeats stays without repeats.
   */
  lemma WithHolidayNew(holidays: seq<Date>, date: Date)
    requires date !in holidays
    ensures var r := WithHoliday(holidays, date);
      && multiset(r) == multiset(holidays) + multiset{date}
      && multiset(r)[date] == 1
      && SortedBy(r, DateLe)
      && (Distinct(holidays) ==> Distinct(r))
  {
    var r := WithHoliday(holidays, date);
    assert TotalPreorder(DateLe);
    SortSorted(holidays + [date], DateLe);
    assert multiset(holidays)[date] == 0;
    if Distinct(holidays) {
      var l := holidays + [date];
      forall i, j | 0 <= i < j < |l| ensures l[i] != l[j] {
        if j == |holidays| {
          assert l[i] in holidays;
        }
      }
      PermutationDistinct(l, r);
    }
  }

  /** Adding a holiday is idempotent, and the date is then a holiday. */
  lemma WithHolidayIdempotent(holidays: seq<Date>, date: Date)
    ensures date in WithHoliday(holidays, date)
    ensures WithHoliday(WithHoliday(holidays, date), date) == WithHoliday(holidays, date)
  {
    if date !in holidays {
      WithHolidayNew(holidays, date);
      assert date in multiset(WithHoliday(holidays, date));
    }
  }

  /**
   * Removing drops every occurrence of the date and keeps the other dates in
   * order, so removing twice is removing once; removing an absent date leaves
   * the list as it was.
   */
  lemma WithoutHolidaySpec(holidays: seq<Date>, date: Date)
    ensures date !in WithoutHoliday(holidays, date)
    ensures date !in holidays ==> WithoutHoliday(holidays, date) == holidays
    ensures WithoutHoliday(WithoutHoliday(holidays, date), date) == WithoutHoliday(holidays, date)
  {
    if date !in holidays {
      assert forall i :: 0 <= i < |holidays| ==> holidays[i] != date;
    }
    var w := WithoutHoliday(holidays, date);
    assert forall i :: 0 <= i < |w| ==> w[i] != date by {
      forall i | 0 <= i < |w| ensures w[i] != date {
        assert w[i] in w;
      }
    }
  }

  /** Removing a date just added gives back the old dates. */
  lemma RemoveAfterAdd(holidays: seq<Date>, date: Date)
    requires date !in holidays
    ensures multiset(WithoutHoliday(WithHoliday(holidays, date), date)) == multiset(holidays)
  {
    WithHolidayNew(holidays, date);
    RemoveOne(WithHoliday(holidays, date), date);
    assert multiset(holidays)[date] == 0;
  }

  /** Filtering out `date` removes exactly its occurrences from the multiset. */
  lemma {:induction false} RemoveOne(s: seq<Date>, date: Date)
    ensures multiset(Filter(s, (d: Date) => d != date)) == multiset(s)[date := 0]
    decreases |s|
  {
    if s != [] {
      RemoveOne(s[1..], date);
      assert s == [s[0]] + s[1..];
    }
  }

  // ------------------------------------------------------------------ store

  class SettingsStore {
    /** When the module was loaded: the stamps of `DEFAULT_SETTINGS`. */
    const loadTime: string
    /** The record under the settings storage key, if any. */
    var stored: Option<AppSettings>

    constructor(loadTime: string, initial: Option<AppSettings>)
      ensures this.loadTime == loadTime && stored == initial
    {
      this.loadTime := loadTime;
      stored := initial;
    }

    method GetSettings(io: Storage) returns (r: AppSettings)
      modifies this
      ensures (r, stored) == GetOutcome(old(stored), DefaultSettings(loadTime), io)
    {
      if !io.canRead {
        return DefaultSettings(loadTime);
      }
      match stored
      case None =>
        if io.canWrite {
          stored := Some(DefaultSettings(loadTime));
        }
        r := DefaultSettings(loadTime);
      case Some(s) =>
        if s.reminderSettings.Some? {
          r := s;
        } else if io.canWrite {
          stored := Some(Migrated(s));
          r := Migrated(s);
        } else {
          r := DefaultSettings(loadTime);
        }
    }

    /**
     * Merges `updates` over what `getSettings` answers and writes the result;
     * a write error propagates (`None`) and leaves the record as it was.
     */
    method UpdateSettings(updates: SettingsUpdate, io: Storage, now: string) returns (r: Option<AppSettings>)
      modifies this
      ensures var current := GetOutcome(old(stored), DefaultSettings(loadTime), io).0;
        current.reminderSettings.Some? &&
        (io.canWrite ==> r == Some(MergeSettings(current, updates, now)) && stored == r)
      ensures !io.canWrite ==> r.None? && stored == old(stored)
    {
      GetOutcomeSpec(stored, DefaultSettings(loadTime), io);
      var current := GetSettings(io);
      if !io.canWrite {
        return None;
      }
      var updated := MergeSettings(current, updates, now);
      stored := Some(updated);
      r := Some(updated);
    }

    method UpdateReminderSettings(updates: ReminderUpdate, io: Storage, now: string) returns (r: Option<AppSettings>)
      modifies this
      ensures var current := GetOutcome(old(stored), DefaultSettings(loadTime), io).0;
        current.reminderSettings.Some? &&
        (io.canWrite ==> r == Some(MergeSettings(current, SettingsUpdate(None, None, None, None, Some(updates)), now)) && stored == r)
      ensures !io.canWrite ==> r.None? && stored == old(stored)
    {
      r := UpdateSettings(SettingsUpdate(None, None, None, None, Some(updates)), io, now);
    }

    /**
     * A date already listed is answered with the settings as they are, without
     * writing; a new one is added and the list sorted, then written through
     * `updateSettings`.
     */
    method AddHoliday(date: Date, io: Storage, now: string) returns (r: Option<AppSettings>)
      modifies this
      ensures var current := GetOutcome(old(stored), DefaultSettings(loadTime), io).0;
        current.reminderSettings.Some? &&
        if date in current.holidays then
          r == Some(current) && stored == GetOutcome(old(stored), DefaultSettings(loadTime), io).1
        else if io.canWrite then
          r == Some(MergeSettings(current, SettingsUpdate(None, None, None, Some(WithHoliday(current.holidays, date)), None), now)) &&
          stored == r
        else
          r.None? && stored == old(stored)
    {
      GetOutcomeSpec(stored, DefaultSettings(loadTime), io);
      var settings := GetSettings(io);
      if date in settings.holidays {
        return Some(settings);
      }
      var updatedHolidays := WithHoliday(settings.holidays, date);
      GetOutcomeSpec(stored, DefaultSettings(loadTime), io);
      r := UpdateSettings(SettingsUpdate(None, None, None, Some(updatedHolidays), None), io, now);
    }

    /** Writes the holiday list without `date` through `updateSettings`. */
    method RemoveHoliday(date: Date, io: Storage, now: string) returns (r: Option<AppSettings>)
      modifies this
      ensures var current := GetOutcome(old(stored), DefaultSettings(loadTime), io).0;
        current.reminderSettings.Some? &&
        if io.canWrite then
          r == Some(MergeSettings(current, SettingsUpdate(None, None, None, Some(WithoutHoliday(current.holidays, date)), None), now)) &&
          stored == r
        else
          r.None? && stored == old(stored)
    {
      GetOutcomeSpec(stored, DefaultSettings(loadTime), io);
      var settings := GetSettings(io);
      var updatedHolidays := WithoutHoliday(settings.holidays, date);
      GetOutcomeSpec(stored, DefaultSettings(loadTime), io);
      r := UpdateSettings(SettingsUpdate(None, None, None, Some(updatedHolidays), None), io, now);
    }

    /** Membership of `date` in the holidays `getSettings` answers. */
    method IsHoliday(date: Date, io: Storage) returns (b: bool)
      modifies this
      ensures var (current, after) := GetOutcome(old(stored), DefaultSettings(loadTime), io);
        b == (date in current.holidays) && stored == after
    {
      var settings := GetSettings(io);
      b := date in settings.holidays;
    }

    /** Writes and answers the DefaultSettings(loadTime); a write error propagates. */
    method ResetToDefaults(io: Storage) returns (r: Option<AppSettings>)
      modifies this
      ensures io.canWrite ==> r == Some(DefaultSettings(loadTime)) && stored == r
      ensures !io.canWrite ==> r.None? && stored == old(stored)
    {
      if !io.canWrite {
        return None;
      }
      stored := Some(DefaultSettings(loadTime));
      r := Some(DefaultSettings(loadTime));
    }
  }
}
