/** The operating-hours rules and the capacity ledger of the scheduling subsystem. */
module ScheduleTypes {
  import opened Wrappers

  datatype Weekday = Sunday | Monday | Tuesday | Wednesday | Thursday | Friday | Saturday

  /** A wall-clock window, both ends as `HH:mm` strings. */
  datatype TimeWindow = TimeWindow(startTime: string, endTime: string)

  /** A per-weekday rule; the custom window is declared but never read by the slot generator. */
  datatype DayException = DayException(
    dayOfWeek: Weekday,
    isClosed: bool,
    customStartTime: Option<string>,
    customEndTime: Option<string>)

  datatype ScheduleConfig = ScheduleConfig(
    defaultWindow: TimeWindow,
    slotDurationMinutes: int,
    minLeadTimeHours: int,
    dayExceptions: seq<DayException>)

  /** Booking state of one time slot of one date. */
  datatype SlotCapacity = SlotCapacity(timeSlot: string, limit: int, bookedCount: int)

  /** Booking state of one calendar date, keyed by its `YYYY-MM-DD` string. */
  datatype CapacityLimit = CapacityLimit(
    date: string,
    maxOrders: int,
    isBlackoutDay: bool,
    timeSlotCapacity: Option<seq<SlotCapacity>>)
}
