/**
 * The two slot generators of `src/utils/helpers.ts`: `generateTimeSlots`
 * (legacy, fixed hours) and `generateTimeSlotsWithSettings`. Both walk the
 * hours from opening to closing and, inside each hour, the minutes
 * `0, interval, 2*interval, ... < 60`; a candidate is kept when a closing test
 * passes, and is free when it overlaps none of that date's appointments.
 *
 * The walk is specified once, over a `Grid` (`Row`, `Day`); the grid's closing
 * rule tells the generators apart.
 */
module Slots {
  import opened Wrappers
  import opened Types
  import opened Helpers
  import Constants

  predicate Increasing(slots: seq<TimeSlot>) {
    forall i, j :: 0 <= i < j < |slots| ==> slots[i].time < slots[j].time
  }

  lemma IncreasingConcat(a: seq<TimeSlot>, b: seq<TimeSlot>)
    requires Increasing(a) && Increasing(b)
    requires forall i, j :: 0 <= i < |a| && 0 <= j < |b| ==> a[i].time < b[j].time
    ensures Increasing(a + b)
  {
  }

  lemma ConcatAssoc(a: seq<TimeSlot>, b: seq<TimeSlot>, c: seq<TimeSlot>)
    ensures (a + b) + c == a + (b + c)
  {
  }

  // ------------------------------------------------------------ the grids

  /**
   * Which closing test a grid applies (see `FitsBeforeClosing`): the end minute
   * of the settings-driven generator, the start minute of the legacy one, or the
   * corrected test on the unwrapped end time.
   */
  datatype ClosingRule = EndMinute | StartMinute | WithinDay

  /**
   * The inputs of one run of a slot generator: opening and closing hour, the
   * grid step, the service duration, that day's appointments and the closing rule.
   */
  datatype Grid = Grid(
    open: int,
    close: int,
    interval: int,
    duration: int,
    dayAppointments: seq<Appointment>,
    rule: ClosingRule)

  /**
   * Whether a candidate starting at `hour:minute` is kept. The settings-driven
   * generator keeps it when its end time is at or before closing; the legacy one
   * when its end time is before closing, or within the closing hour for a
   * candidate that starts on the hour (`ClosingTest` relates this to the
   * hour/minute test the generators actually perform). Both look at the end
   * time of day, which wraps past midnight; the corrected rule compares the
   * start plus the duration with closing instead.
   */
  predicate FitsBeforeClosing(g: Grid, hour: int, minute: int) {
    var endTime := CalculateEndTime(hour * 60 + minute, g.duration);
    match g.rule
    case EndMinute => endTime <= g.close * 60
    case StartMinute => endTime < g.close * 60 || (endTime < g.close * 60 + 60 && minute <= 0)
    case WithinDay => hour * 60 + minute + g.duration <= g.close * 60
  }

  /** The generators' own test: skip when `endHour > END || (endHour === END && tested > 0)`. */
  predicate SkipTest(g: Grid, minute: int, endTime: int) {
    var tested := if g.rule == EndMinute then endTime % 60 else minute;
    endTime / 60 > g.close || (endTime / 60 == g.close && tested > 0)
  }

  /**
   * The hour/minute test the loops perform keeps exactly the candidates
   * `FitsBeforeClosing` keeps: for the settings-driven generator, those whose
   * end time of day is at or before closing.
   */
  lemma ClosingTest(g: Grid, hour: int, minute: int)
    requires g.rule != WithinDay
    ensures FitsBeforeClosing(g, hour, minute) <==> !SkipTest(g, minute, CalculateEndTime(hour * 60 + minute, g.duration))
  {
    var endTime := CalculateEndTime(hour * 60 + minute, g.duration);
    DivModUnique(endTime, 60, endTime / 60, endTime % 60);
  }

  /** The slot emitted for start time `t`: free iff it overlaps none of the day's appointments. */
  function SlotAt(g: Grid, t: int): TimeSlot {
    TimeSlot(t, !CheckTimeConflict(t, CalculateEndTime(t, g.duration), g.dayAppointments))
  }

  /** What the walk emits at `(hour, minute)`: the candidate's slot when it is kept. */
  function Cell(g: Grid, hour: int, minute: int): seq<TimeSlot> {
    if FitsBeforeClosing(g, hour, minute) then [SlotAt(g, hour * 60 + minute)] else []
  }

  /** The candidates of one hour from `minute` on: the inner `for` loop. */
  function Row(g: Grid, hour: int, minute: int): seq<TimeSlot>
    requires g.interval > 0
    decreases 60 - minute
  {
    if minute >= 60 then [] else Cell(g, hour, minute) + Row(g, hour, minute + g.interval)
  }

  /** The hours from `hour` up to closing: the outer `for` loop. */
  function Day(g: Grid, hour: int): seq<TimeSlot>
    requires g.interval > 0
    decreases g.close - hour
  {
    if hour >= g.close then [] else Row(g, hour, 0) + Day(g, hour + 1)
  }

  /** `t` is a grid point of the business hours that the closing test keeps. */
  predicate Emitted(g: Grid, t: int)
    requires g.interval > 0
  {
    g.open <= t / 60 < g.close && (t % 60) % g.interval == 0 && FitsBeforeClosing(g, t / 60, t % 60)
  }

  // ------------------------------------------------------------ the walk

  /** `m` is reached from `minute` by whole steps of `interval`. */
  predicate OnGrid(minute: int, m: int, interval: int)
    requires interval > 0
    decreases m - minute
  {
    m == minute || (m >= minute + interval && OnGrid(minute + interval, m, interval))
  }

  /** Being reached by whole steps is being a multiple of the step away. */
  lemma {:induction false} OnGridMod(minute: int, m: int, interval: int)
    requires interval > 0 && minute <= m
    ensures OnGrid(minute, m, interval) <==> (m - minute) % interval == 0
    decreases m - minute
  {
    var d := m - minute;
    if d == 0 {
      DivModUnique(d, interval, 0, 0);
    } else if d < interval {
      assert !OnGrid(minute, m, interval);
      DivModUnique(d, interval, 0, d);
    } else {
      assert OnGrid(minute, m, interval) == OnGrid(minute + interval, m, interval);
      OnGridMod(minute + interval, m, interval);
      assert m - (minute + interval) == d - interval;
      ModShift(d - interval, interval);
      assert d - interval + interval == d;
    }
  }

  /** A slot of a row is the slot of a kept minute `m` of its hour, on the grid from `minute`. */
  lemma {:induction false} RowMember(g: Grid, hour: int, minute: int, s: TimeSlot) returns (m: int)
    requires g.interval > 0
    requires s in Row(g, hour, minute)
    ensures minute <= m < 60 && OnGrid(minute, m, g.interval)
    ensures s.time == hour * 60 + m && FitsBeforeClosing(g, hour, m) && s == SlotAt(g, s.time)
    decreases 60 - minute
  {
    var next := minute + g.interval;
    var c := Cell(g, hour, minute);
    assert Row(g, hour, minute) == c + Row(g, hour, next);
    if s in c {
      m := minute;
    } else {
      m := RowMember(g, hour, next, s);
    }
  }

  /** Row times ascend. */
  lemma {:induction false} RowIncreasing(g: Grid, hour: int, minute: int)
    requires g.interval > 0
    ensures Increasing(Row(g, hour, minute))
    decreases 60 - minute
  {
    if minute < 60 {
      var next := minute + g.interval;
      var c, rest := Cell(g, hour, minute), Row(g, hour, next);
      assert Row(g, hour, minute) == c + rest;
      RowIncreasing(g, hour, next);
      forall i, j | 0 <= i < |c| && 0 <= j < |rest| ensures c[i].time < rest[j].time {
        var _ := RowMember(g, hour, next, rest[j]);
      }
      IncreasingConcat(c, rest);
    }
  }

  /** What the cell of a minute on the grid from `minute` holds is in the row. */
  lemma {:induction false} RowHas(g: Grid, hour: int, minute: int, m: int, x: TimeSlot)
    requires g.interval > 0 && minute <= m < 60 && OnGrid(minute, m, g.interval)
    requires x in Cell(g, hour, m)
    ensures x in Row(g, hour, minute)
    decreases 60 - minute
  {
    var c, rest := Cell(g, hour, minute), Row(g, hour, minute + g.interval);
    assert Row(g, hour, minute) == c + rest;
    if m != minute {
      RowHas(g, hour, minute + g.interval, m, x);
      assert x in rest;
    }
  }

  /** A slot of the day from `hour` on is the slot of a kept grid point `h:m` of those hours. */
  lemma {:induction false} DayMember(g: Grid, hour: int, s: TimeSlot) returns (h: int, m: int)
    requires g.interval > 0
    requires s in Day(g, hour)
    ensures hour <= h < g.close && 0 <= m < 60 && OnGrid(0, m, g.interval)
    ensures s.time == h * 60 + m && FitsBeforeClosing(g, h, m) && s == SlotAt(g, s.time)
    decreases g.close - hour
  {
    var row, rest := Row(g, hour, 0), Day(g, hour + 1);
    assert Day(g, hour) == row + rest;
    if s in row {
      m := RowMember(g, hour, 0, s);
      h := hour;
    } else {
      h, m := DayMember(g, hour + 1, s);
    }
  }

  /** Day times ascend. */
  lemma {:induction false} DayIncreasing(g: Grid, hour: int)
    requires g.interval > 0
    ensures Increasing(Day(g, hour))
    decreases g.close - hour
  {
    if hour < g.close {
      var row, rest := Row(g, hour, 0), Day(g, hour + 1);
      assert Day(g, hour) == row + rest;
      DayIncreasing(g, hour + 1);
      RowIncreasing(g, hour, 0);
      forall i, j | 0 <= i < |row| && 0 <= j < |rest| ensures row[i].time < rest[j].time {
        var _ := RowMember(g, hour, 0, row[i]);
        var _, _ := DayMember(g, hour + 1, rest[j]);
      }
      IncreasingConcat(row, rest);
    }
  }

  /** What the cell of a grid point `h:m` of the hours from `hour` on holds is in the day. */
  lemma {:induction false} DayHas(g: Grid, hour: int, h: int, m: int, x: TimeSlot)
    requires g.interval > 0 && hour <= h < g.close && 0 <= m < 60 && OnGrid(0, m, g.interval)
    requires x in Cell(g, h, m)
    ensures x in Day(g, hour)
    decreases g.close - hour
  {
    var row, rest := Row(g, hour, 0), Day(g, hour + 1);
    assert Day(g, hour) == row + rest;
    if h == hour {
      RowHas(g, hour, 0, m, x);
      assert x in row;
    } else {
      DayHas(g, hour + 1, h, m, x);
      assert x in rest;
    }
  }

  /** A time at a kept grid point `h:m` of the business hours is `Emitted`. */
  lemma EmittedAt(g: Grid, h: int, m: int, t: int)
    requires g.interval > 0 && g.open <= h < g.close && 0 <= m < 60 && OnGrid(0, m, g.interval)
    requires t == h * 60 + m && FitsBeforeClosing(g, h, m)
    ensures Emitted(g, t)
  {
    DivModUnique(t, 60, h, m);
    assert t / 60 == h && t % 60 == m;
    OnGridMod(0, m, g.interval);
    assert m - 0 == m;
  }

  /** A slot of a grid's walk is the slot of a kept grid point. */
  lemma DaySlotSound(g: Grid, s: TimeSlot)
    requires g.interval > 0 && s in Day(g, g.open)
    ensures s == SlotAt(g, s.time) && Emitted(g, s.time)
  {
    var h, m := DayMember(g, g.open, s);
    EmittedAt(g, h, m, s.time);
  }

  /** Every slot of a grid's walk is the slot of a kept grid point. */
  lemma DaySound(g: Grid)
    requires g.interval > 0
    ensures forall s :: s in Day(g, g.open) ==> s == SlotAt(g, s.time) && Emitted(g, s.time)
  {
    forall s | s in Day(g, g.open) ensures s == SlotAt(g, s.time) && Emitted(g, s.time) {
      DaySlotSound(g, s);
    }
  }

  /** A kept grid point has its slot in the grid's walk. */
  lemma EmittedListed(g: Grid, t: int)
    requires g.interval > 0 && Emitted(g, t)
    ensures SlotAt(g, t) in Day(g, g.open)
  {
    var h, m := t / 60, t % 60;
    OnGridMod(0, m, g.interval);
    assert m - 0 == m;
    assert t == h * 60 + m;
    assert SlotAt(g, t) in Cell(g, h, m);
    DayHas(g, g.open, h, m, SlotAt(g, t));
  }

  /** Every kept grid point has its slot in the grid's walk. */
  lemma DayComplete(g: Grid)
    requires g.interval > 0
    ensures forall t :: Emitted(g, t) ==> SlotAt(g, t) in Day(g, g.open)
  {
    forall t | Emitted(g, t) ensures SlotAt(g, t) in Day(g, g.open) {
      EmittedListed(g, t);
    }
  }

  /**
   * A grid's walk: the slots ascend, each is the slot of a kept grid point, and
   * every kept grid point has its slot listed.
   */
  lemma DaySpec(g: Grid)
    requires g.interval > 0
    ensures Increasing(Day(g, g.open))
    ensures forall s :: s in Day(g, g.open) ==> s == SlotAt(g, s.time) && Emitted(g, s.time)
    ensures forall t :: Emitted(g, t) ==> SlotAt(g, t) in Day(g, g.open)
  {
    DayIncreasing(g, g.open);
    DaySound(g);
    DayComplete(g);
  }

  /** A slot is listed for `t` exactly when `t` is a kept grid point. */
  lemma DayExactly(g: Grid, t: int)
    requires g.interval > 0
    ensures SlotAt(g, t) in Day(g, g.open) <==> Emitted(g, t)
  {
    DaySpec(g);
  }

  /** A listed slot is free exactly when no appointment of the grid's day overlaps it. */
  lemma SlotAvailability(g: Grid, t: int)
    ensures SlotAt(g, t).available <==>
      forall i :: 0 <= i < |g.dayAppointments| ==> !Overlaps(t, CalculateEndTime(t, g.duration), g.dayAppointments[i])
  {
    CheckTimeConflictSpec(t, CalculateEndTime(t, g.duration), g.dayAppointments);
  }

  // ------------------------------------------------------------ the loops

  /**
   * The body of the inner loop for one candidate: its end time, the closing
   * test on its end hour and the tested minute, and when kept, its slot with
   * the conflict check's answer.
   */
  method Candidate(g: Grid, hour: int, minute: int) returns (slot: Option<TimeSlot>)
    requires g.rule != WithinDay
    ensures slot.Some? <==> FitsBeforeClosing(g, hour, minute)
    ensures slot.Some? ==> slot.value == SlotAt(g, hour * 60 + minute)
  {
    var time := hour * 60 + minute;
    var endTime := CalculateEndTime(time, g.duration);
    var endHour, endMinute := endTime / 60, endTime % 60;
    var tested := if g.rule == EndMinute then endMinute else minute;
    ClosingTest(g, hour, minute);
    if endHour > g.close || (endHour == g.close && tested > 0) {
      return None;
    }
    var hasConflict := CheckTimeConflict(time, endTime, g.dayAppointments);
    slot := Some(TimeSlot(time, !hasConflict));
  }

  /** Appending the candidate's answer keeps the inner loop's invariant. */
  lemma RowAppend(g: Grid, hour: int, minute: int, before: seq<TimeSlot>, candidate: Option<TimeSlot>)
    requires g.interval > 0 && minute < 60
    requires candidate.Some? <==> FitsBeforeClosing(g, hour, minute)
    requires candidate.Some? ==> candidate.value == SlotAt(g, hour * 60 + minute)
    requires before + Row(g, hour, minute) == Row(g, hour, 0)
    ensures var after := if candidate.Some? then before + [candidate.value] else before;
      after + Row(g, hour, minute + g.interval) == Row(g, hour, 0)
  {
    assert Row(g, hour, minute) == Cell(g, hour, minute) + Row(g, hour, minute + g.interval);
    ConcatAssoc(before, Cell(g, hour, minute), Row(g, hour, minute + g.interval));
  }

  /**
   * The inner `for` loop of both generators: the slots of one hour. The two
   * generators differ only in the minute their closing test looks at, which the
   * grid's rule selects.
   */
  method HourSlots(g: Grid, hour: int) returns (row: seq<TimeSlot>)
    requires g.interval > 0 && g.rule != WithinDay
    ensures row == Row(g, hour, 0)
  {
    row := [];
    var minute := 0;
    while minute < 60
      invariant 0 <= minute
      invariant row + Row(g, hour, minute) == Row(g, hour, 0)
      decreases 60 - minute
    {
      var candidate := Candidate(g, hour, minute);
      RowAppend(g, hour, minute, row, candidate);
      if candidate.Some? {
        row := row + [candidate.value];
      }
      minute := minute + g.interval;
    }
  }

  /** The outer `for` loop of both generators: the hours from opening to closing. */
  method DaySlots(g: Grid) returns (slots: seq<TimeSlot>)
    requires g.interval > 0 && g.rule != WithinDay
    ensures slots == Day(g, g.open)
  {
    slots := [];
    var hour := g.open;
    while hour < g.close
      invariant slots + Day(g, hour) == Day(g, g.open)
      decreases g.close - hour
    {
      var row := HourSlots(g, hour);
      assert Day(g, hour) == row + Day(g, hour + 1);
      ConcatAssoc(slots, row, Day(g, hour + 1));
      slots := slots + row;
      hour := hour + 1;
    }
  }

  // ------------------------------------------------ generateTimeSlotsWithSettings

  /** The grid of `generateTimeSlotsWithSettings`: the settings' hours and interval, or 8/18/30. */
  function SettingsGrid(settings: Option<AppSettings>, serviceDuration: int, dayAppointments: seq<Appointment>): Grid {
    match settings
    case Some(s) => Grid(s.businessHours.start, s.businessHours.end, s.timeSlotInterval, serviceDuration, dayAppointments, EndMinute)
    case None => Grid(Constants.START, Constants.END, Constants.SLOT_INTERVAL, serviceDuration, dayAppointments, EndMinute)
  }

  predicate IsHolidayIn(settings: Option<AppSettings>, date: Date) {
    settings.Some? && date in settings.value.holidays
  }

  /** The slot list `generateTimeSlotsWithSettings` returns. */
  function TimeSlotsWithSettings(date: Date, appointments: seq<Appointment>, serviceDuration: int, settings: Option<AppSettings>): seq<TimeSlot>
    requires settings.Some? ==> settings.value.timeSlotInterval > 0
  {
    if IsHolidayIn(settings, date) then []
    else
      var g := SettingsGrid(settings, serviceDuration, OnDate(appointments, date));
      Day(g, g.open)
  }

  method GenerateTimeSlotsWithSettings(date: Date, appointments: seq<Appointment>, serviceDuration: int, settings: Option<AppSettings>)
    returns (slots: seq<TimeSlot>)
    requires settings.Some? ==> settings.value.timeSlotInterval > 0
    ensures slots == TimeSlotsWithSettings(date, appointments, serviceDuration, settings)
  {
    if IsHolidayIn(settings, date) {
      return [];
    }
    var dayAppointments := OnDate(appointments, date);
    slots := DaySlots(SettingsGrid(settings, serviceDuration, dayAppointments));
  }

  /**
   * `generateTimeSlotsWithSettings`: nothing on a holiday; otherwise the slots
   * ascend, a slot is listed for a grid point of the business hours exactly
   * when the closing test keeps it, and it is free exactly when no appointment
   * of that date overlaps it.
   */
  lemma TimeSlotsWithSettingsSpec(date: Date, appointments: seq<Appointment>, serviceDuration: int, settings: Option<AppSettings>)
    requires settings.Some? ==> settings.value.timeSlotInterval > 0
    ensures var slots := TimeSlotsWithSettings(date, appointments, serviceDuration, settings);
      var g := SettingsGrid(settings, serviceDuration, OnDate(appointments, date));
      && (IsHolidayIn(settings, date) ==> slots == [])
      && Increasing(slots)
      && (forall s :: s in slots ==> s == SlotAt(g, s.time) && Emitted(g, s.time))
      && (!IsHolidayIn(settings, date) ==> forall t :: Emitted(g, t) ==> SlotAt(g, t) in slots)
  {
    DaySpec(SettingsGrid(settings, serviceDuration, OnDate(appointments, date)));
  }

  /** Off holidays, a slot is listed for `t` exactly when the settings grid keeps `t`. */
  lemma SettingsListed(date: Date, appointments: seq<Appointment>, serviceDuration: int, settings: Option<AppSettings>, t: int)
    requires settings.Some? ==> settings.value.timeSlotInterval > 0
    requires !IsHolidayIn(settings, date)
    ensures var g := SettingsGrid(settings, serviceDuration, OnDate(appointments, date));
      SlotAt(g, t) in TimeSlotsWithSettings(date, appointments, serviceDuration, settings) <==> Emitted(g, t)
  {
    DayExactly(SettingsGrid(settings, serviceDuration, OnDate(appointments, date)), t);
  }

  /** A free slot overlaps no appointment of its date. */
  lemma FreeSlotHasNoConflict(date: Date, appointments: seq<Appointment>, serviceDuration: int, settings: Option<AppSettings>, s: TimeSlot, a: Appointment)
    requires settings.Some? ==> settings.value.timeSlotInterval > 0
    requires s in TimeSlotsWithSettings(date, appointments, serviceDuration, settings)
    requires a in appointments && a.date == date
    ensures s.available <==> !CheckTimeConflict(s.time, CalculateEndTime(s.time, serviceDuration), OnDate(appointments, date))
    ensures s.available ==> !Overlaps(s.time, CalculateEndTime(s.time, serviceDuration), a)
  {
    var g := SettingsGrid(settings, serviceDuration, OnDate(appointments, date));
    TimeSlotsWithSettingsSpec(date, appointments, serviceDuration, settings);
    SlotAvailability(g, s.time);
    var k :| 0 <= k < |g.dayAppointments| && g.dayAppointments[k] == a;
  }

  lemma NoAppointmentsOnDate(date: Date)
    ensures OnDate([], date) == []
  {
  }

  /** With no appointments every listed slot is free. */
  lemma FreeWhenNoAppointments(g: Grid, t: int)
    requires g.dayAppointments == []
    ensures SlotAt(g, t) == TimeSlot(t, true)
  {
    CheckTimeConflictSpec(t, CalculateEndTime(t, g.duration), []);
  }

  /** Under the default hours a 60-minute service can start at 17:00 but not at 17:30. */
  lemma DefaultHoursLastSlot(date: Date)
    ensures TimeSlot(17 * 60, true) in TimeSlotsWithSettings(date, [], 60, None)
    ensures TimeSlot(17 * 60 + 30, true) !in TimeSlotsWithSettings(date, [], 60, None)
  {
    assert CalculateEndTime(17 * 60, 60) == 18 * 60;
    assert CalculateEndTime(17 * 60 + 30, 60) == 18 * 60 + 30;
    NoAppointmentsOnDate(date);
    var g := SettingsGrid(None, 60, []);
    assert !Emitted(g, 17 * 60 + 30);
    FreeWhenNoAppointments(g, 17 * 60);
    FreeWhenNoAppointments(g, 17 * 60 + 30);
    SettingsListed(date, [], 60, None, 17 * 60);
    SettingsListed(date, [], 60, None, 17 * 60 + 30);
  }

  /** Default hours with another slot interval. */
  function IntervalSettings(interval: int): AppSettings {
    AppSettings(BusinessHours(Constants.START, Constants.END), interval, Light, [], None, "", "")
  }

  /**
   * The minutes restart at :00 every hour, so a 45-minute interval gives
   * 08:00, 08:45, 09:00, 09:45, ...: gaps of 45 and 15 minutes, and 08:30 or
   * 09:30 is never offered.
   */
  lemma UnevenGrid(date: Date)
    ensures var slots := TimeSlotsWithSettings(date, [], 30, Some(IntervalSettings(45)));
      && TimeSlot(8 * 60, true) in slots
      && TimeSlot(8 * 60 + 45, true) in slots
      && TimeSlot(9 * 60, true) in slots
      && TimeSlot(9 * 60 + 30, true) !in slots
  {
    var settings := Some(IntervalSettings(45));
    var g := SettingsGrid(settings, 30, []);
    assert CalculateEndTime(8 * 60, 30) == 8 * 60 + 30;
    assert CalculateEndTime(8 * 60 + 45, 30) == 9 * 60 + 15;
    assert CalculateEndTime(9 * 60, 30) == 9 * 60 + 30;
    assert Emitted(g, 8 * 60) && Emitted(g, 8 * 60 + 45) && Emitted(g, 9 * 60);
    assert !Emitted(g, 9 * 60 + 30);
    FreeSlotListed(date, 30, settings, 8 * 60);
    FreeSlotListed(date, 30, settings, 8 * 60 + 45);
    FreeSlotListed(date, 30, settings, 9 * 60);
    FreeSlotListed(date, 30, settings, 9 * 60 + 30);
  }

  /** With no appointments, a time is listed, as free, exactly when its grid point is kept. */
  lemma FreeSlotListed(date: Date, serviceDuration: int, settings: Option<AppSettings>, t: int)
    requires settings.Some? ==> settings.value.timeSlotInterval > 0
    requires !IsHolidayIn(settings, date)
    ensures TimeSlot(t, true) in TimeSlotsWithSettings(date, [], serviceDuration, settings)
      <==> Emitted(SettingsGrid(settings, serviceDuration, []), t)
  {
    NoAppointmentsOnDate(date);
    var g := SettingsGrid(settings, serviceDuration, []);
    FreeWhenNoAppointments(g, t);
    SettingsListed(date, [], serviceDuration, settings, t);
    if TimeSlot(t, true) in TimeSlotsWithSettings(date, [], serviceDuration, settings) {
      DaySpec(g);
    }
  }

  /** Every slot of a grid that tests the end minute ends, as a time of day, by closing. */
  lemma EndMinuteSlotsEndByClosing(g: Grid)
    requires g.interval > 0 && g.rule == EndMinute
    ensures forall s :: s in Day(g, g.open) ==> CalculateEndTime(s.time, g.duration) <= g.close * 60
  {
    DaySpec(g);
    forall s | s in Day(g, g.open) ensures CalculateEndTime(s.time, g.duration) <= g.close * 60 {
      assert FitsBeforeClosing(g, s.time / 60, s.time % 60);
      assert s.time / 60 * 60 + s.time % 60 == s.time;
    }
  }

  /** Every slot of a grid with the corrected rule starts and ends within business hours. */
  lemma WithinDaySlotsEndByClosing(g: Grid)
    requires g.interval > 0 && g.rule == WithinDay
    ensures forall s :: s in Day(g, g.open) ==> g.open * 60 <= s.time && s.time + g.duration <= g.close * 60
  {
    DaySpec(g);
    forall s | s in Day(g, g.open) ensures g.open * 60 <= s.time && s.time + g.duration <= g.close * 60 {
      assert FitsBeforeClosing(g, s.time / 60, s.time % 60);
      assert s.time / 60 * 60 + s.time % 60 == s.time;
    }
  }

  // ----------------------------------------------------- generateTimeSlots (legacy)

  /** The grid of the legacy `generateTimeSlots`: constant 8/18/30, closing tested on the start minute. */
  function LegacyGrid(serviceDuration: int, dayAppointments: seq<Appointment>): Grid {
    Grid(Constants.START, Constants.END, Constants.SLOT_INTERVAL, serviceDuration, dayAppointments, StartMinute)
  }

  /** The slot list the legacy `generateTimeSlots` returns; it has no holiday check. */
  function LegacyTimeSlots(date: Date, appointments: seq<Appointment>, serviceDuration: int): seq<TimeSlot> {
    var g := LegacyGrid(serviceDuration, OnDate(appointments, date));
    Day(g, g.open)
  }

  method GenerateTimeSlots(date: Date, appointments: seq<Appointment>, serviceDuration: int)
    returns (slots: seq<TimeSlot>)
    ensures slots == LegacyTimeSlots(date, appointments, serviceDuration)
  {
    var dayAppointments := OnDate(appointments, date);
    slots := DaySlots(LegacyGrid(serviceDuration, dayAppointments));
  }

  /** The legacy list ascends, and lists a slot exactly for the grid points its closing test keeps. */
  lemma LegacyTimeSlotsSpec(date: Date, appointments: seq<Appointment>, serviceDuration: int)
    ensures var slots := LegacyTimeSlots(date, appointments, serviceDuration);
      var g := LegacyGrid(serviceDuration, OnDate(appointments, date));
      && Increasing(slots)
      && (forall s :: s in slots ==> s == SlotAt(g, s.time) && Emitted(g, s.time))
      && (forall t :: Emitted(g, t) ==> SlotAt(g, t) in slots)
  {
    DaySpec(LegacyGrid(serviceDuration, OnDate(appointments, date)));
  }

  // ------------------------------------------------------------ findings

  /**
   * The legacy generator tests the start minute instead of the end minute: a
   * 75-minute service starting at 17:00 is offered though it ends at 18:15,
   * after the 18:00 closing.
   */
  lemma LegacyClosingCounterexample(date: Date)
    ensures TimeSlot(17 * 60, true) in LegacyTimeSlots(date, [], 75)
    ensures CalculateEndTime(17 * 60, 75) > Constants.END * 60
  {
    assert CalculateEndTime(17 * 60, 75) == 18 * 60 + 15;
    NoAppointmentsOnDate(date);
    var g := LegacyGrid(75, []);
    FreeWhenNoAppointments(g, 17 * 60);
    DayExactly(g, 17 * 60);
  }

  /**
   * The settings-driven generator, with the same default hours, never offers a
   * slot whose end time of day is after closing, and so does not offer 17:00
   * for 75 minutes.
   */
  lemma SettingsSlotsEndByClosing(date: Date, appointments: seq<Appointment>, serviceDuration: int, settings: Option<AppSettings>)
    requires settings.Some? ==> settings.value.timeSlotInterval > 0
    ensures var g := SettingsGrid(settings, serviceDuration, OnDate(appointments, date));
      forall s :: s in TimeSlotsWithSettings(date, appointments, serviceDuration, settings) ==>
        CalculateEndTime(s.time, serviceDuration) <= g.close * 60
  {
    EndMinuteSlotsEndByClosing(SettingsGrid(settings, serviceDuration, OnDate(appointments, date)));
  }

  /** Settings with business hours `start`-`end`, a 30-minute grid and no holidays. */
  function HoursSettings(start: int, end: int): AppSettings {
    AppSettings(BusinessHours(start, end), 30, Light, [], None, "", "")
  }

  /**
   * Both generators test the end time of day, which wraps past midnight: with
   * business hours 20-23 a 120-minute service starting at 22:30 ends at 00:30,
   * whose hour 0 passes the closing test, so it is offered though it runs an
   * hour and a half past closing.
   */
  lemma MidnightWrapCounterexample(date: Date)
    ensures TimeSlot(22 * 60 + 30, true) in TimeSlotsWithSettings(date, [], 120, Some(HoursSettings(20, 23)))
    ensures 22 * 60 + 30 + 120 > 23 * 60
  {
    NoAppointmentsOnDate(date);
    var g := SettingsGrid(Some(HoursSettings(20, 23)), 120, []);
    assert CalculateEndTime(22 * 60 + 30, 120) == 30;
    FreeWhenNoAppointments(g, 22 * 60 + 30);
    SettingsListed(date, [], 120, Some(HoursSettings(20, 23)), 22 * 60 + 30);
  }

  /** The generator as evidently intended: the closing test compares start plus duration with closing. */
  function CorrectedTimeSlots(date: Date, appointments: seq<Appointment>, serviceDuration: int, settings: Option<AppSettings>): seq<TimeSlot>
    requires settings.Some? ==> settings.value.timeSlotInterval > 0
  {
    if IsHolidayIn(settings, date) then []
    else
      var g := SettingsGrid(settings, serviceDuration, OnDate(appointments, date)).(rule := WithinDay);
      Day(g, g.open)
  }

  /**
   * Every slot the corrected generator offers ends by closing, and when the
   * business hours end before midnight its end time does not wrap, so the
   * conflict test sees the booking's real interval.
   */
  lemma CorrectedSlotsEndByClosing(date: Date, appointments: seq<Appointment>, serviceDuration: int, settings: Option<AppSettings>)
    requires settings.Some? ==> settings.value.timeSlotInterval > 0
    requires serviceDuration >= 0
    ensures var g := SettingsGrid(settings, serviceDuration, OnDate(appointments, date));
      forall s :: s in CorrectedTimeSlots(date, appointments, serviceDuration, settings) ==>
        s.time + serviceDuration <= g.close * 60 &&
        (0 <= g.open && g.close < 24 ==> CalculateEndTime(s.time, serviceDuration) == s.time + serviceDuration)
  {
    if !IsHolidayIn(settings, date) {
      var g := SettingsGrid(settings, serviceDuration, OnDate(appointments, date)).(rule := WithinDay);
      WithinDaySlotsEndByClosing(g);
      forall s | s in Day(g, g.open)
        ensures 0 <= g.open && g.close < 24 ==> CalculateEndTime(s.time, serviceDuration) == s.time + serviceDuration
      {
        EndTimeWraps(s.time, serviceDuration);
      }
    }
  }

  /** The corrected generator drops the slot the wrap let through. */
  lemma CorrectedDropsWrappedSlot(date: Date)
    ensures forall s :: s in CorrectedTimeSlots(date, [], 120, Some(HoursSettings(20, 23))) ==> s.time != 22 * 60 + 30
  {
    CorrectedSlotsEndByClosing(date, [], 120, Some(HoursSettings(20, 23)));
  }
}
