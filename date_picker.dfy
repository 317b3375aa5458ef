/**
 * The date and time-slot picker (components/products/DatePicker.tsx): the
 * lead-time boundary, the seven-day window, the slot generator with its
 * capacity filter, and the selection state that yields the fulfilment
 * timestamp.  Time is in minutes, days are day numbers (days since
 * 1970-01-01, local time), the weekday of a day is supplied.
 */
module DatePicker {
  import opened Wrappers
  import opened JsText
  import opened JsArray
  import opened ScheduleTypes
  import opened Calendar
  import Data

  /** A JavaScript string that is set and truthy (not null, not ""). */
  predicate Present(s: Option<string>) {
    s.Some? && s.value != ""
  }

  // ---------------------------------------------------------------------------
  // Lead-time boundary

  /** `now + minLeadTimeHours`, moved back to the local midnight at or before it, as a day number. */
  function MinOrderDay(nowMinute: int, minLeadTimeHours: int): (day: int)
    ensures day * 1440 <= nowMinute + minLeadTimeHours * 60 < day * 1440 + 1440
  {
    (nowMinute + minLeadTimeHours * 60) / 1440
  }

  // ---------------------------------------------------------------------------
  // HH:mm

  /** Minutes since midnight as zero-padded `HH:mm`. */
  function FormatClock(m: nat): string {
    Pad2(m / 60) + ":" + Pad2(m % 60)
  }

  /** `s.split(':').map(Number)` read as `[hour, minute]`; `None` when either is NaN or missing. */
  function ParseClockFields(s: string): Option<(nat, nat)> {
    var parts := Split(s, ':');
    if |parts| < 2 then None
    else
      match (JsNumber(parts[0]), JsNumber(parts[1]))
      case (Some(h), Some(m)) => Some((h, m))
      case _ => None
  }

  /** `hour * 60 + minute` of an `HH:mm` string. */
  function ParseClock(s: string): Option<nat> {
    match ParseClockFields(s)
    case Some((h, m)) => Some(h * 60 + m)
    case None => None
  }

  lemma DigitsHaveNoSeparator(s: string, sep: char)
    requires AllDigits(s) && !IsDigit(sep)
    ensures sep !in s
  {
  }

  /** The two-digit field of `n` holds no separator and reads back as `n`. */
  lemma Pad2Field(n: nat, sep: char)
    requires !IsDigit(sep)
    ensures sep !in Pad2(n) && Pad2(n) != ""
    ensures JsNumber(Pad2(n)) == Some(n)
  {
    PaddedDigits(n, 2);
    DigitsHaveNoSeparator(Pad2(n), sep);
    NumberOfPadded(n, 2);
  }

  lemma HourMinute(m: nat)
    ensures (m / 60) * 60 + m % 60 == m
  {
  }

  /** Parsing a formatted slot gives back its hour and its minute. */
  lemma ClockFieldsRoundTrip(m: nat)
    ensures ParseClockFields(FormatClock(m)) == Some((m / 60, m % 60))
  {
    var h, mm := Pad2(m / 60), Pad2(m % 60);
    Pad2Field(m / 60, ':');
    Pad2Field(m % 60, ':');
    SplitAt(h, ':', mm);
    assert FormatClock(m) == h + [':'] + mm;
    assert Split(FormatClock(m), ':') == [h, mm];
  }

  /** Parsing a formatted slot gives back its minutes since midnight. */
  lemma ClockRoundTrip(m: nat)
    ensures ParseClock(FormatClock(m)) == Some(m)
  {
    ClockFieldsRoundTrip(m);
    HourMinute(m);
  }

  /** Distinct minutes never share a label. */
  lemma FormatClockInjective(a: nat, b: nat)
    ensures FormatClock(a) == FormatClock(b) ==> a == b
  {
    ClockRoundTrip(a);
    ClockRoundTrip(b);
  }

  // ---------------------------------------------------------------------------
  // Slot generator

  /** Start and end of the default window in minutes; `None` when either end parses to NaN. */
  function ParseWindow(w: TimeWindow): Option<(nat, nat)> {
    match (ParseClock(w.startTime), ParseClock(w.endTime))
    case (Some(s), Some(e)) => Some((s, e))
    case _ => None
  }

  /** The slot loop ends: a positive step, or a window the loop never enters. */
  predicate SlotLoopTerminates(w: TimeWindow, duration: int) {
    duration > 0 ||
    match ParseWindow(w)
    case Some((s, e)) => s >= e
    case None => true
  }

  /** The minutes the loop visits: `start`, `start + duration`, ... while still before `end`. */
  function Candidates(start: nat, end: int, duration: int): seq<nat>
    requires duration > 0 || start >= end
    decreases end - start
  {
    if start >= end then [] else [start] + Candidates(start + duration, end, duration)
  }

  /** `capacityData?.timeSlotCapacity?.find(t => t.timeSlot === slotLabel)`. */
  function SlotEntry(capacity: Option<CapacityLimit>, slotLabel: string): Option<SlotCapacity> {
    match capacity
    case None => None
    case Some(c) =>
      match c.timeSlotCapacity
      case None => None
      case Some(entries) => Find(entries, (t: SlotCapacity) => t.timeSlot == slotLabel)
  }

  /** The slot's entry exists and is full. */
  predicate IsBookedOut(capacity: Option<CapacityLimit>, slotLabel: string) {
    var e := SlotEntry(capacity, slotLabel);
    e.Some? && e.value.bookedCount >= e.value.limit
  }

  function OpenSlots(labels: seq<string>, capacity: Option<CapacityLimit>): seq<string> {
    Filter(labels, (l: string) => !IsBookedOut(capacity, l))
  }

  /** What the slot generator offers for a selected date, computed from the default window only. */
  function OfferedSlots(w: TimeWindow, duration: int, capacity: Option<CapacityLimit>): seq<string>
    requires SlotLoopTerminates(w, duration)
  {
    match ParseWindow(w)
    case None => []
    case Some((s, e)) => OpenSlots(Map(Candidates(s, e, duration), FormatClock), capacity)
  }

  /** One turn of the slot loop: the first candidate is kept or dropped, then the rest follow. */
  lemma OpenSlotsStep(current: nat, next: nat, end: int, duration: int, capacity: Option<CapacityLimit>,
                      format: nat -> string)
    requires duration > 0 && current < end && next == current + duration
    ensures OpenSlots(Map(Candidates(current, end, duration), format), capacity)
         == (if IsBookedOut(capacity, format(current)) then [] else [format(current)])
            + OpenSlots(Map(Candidates(next, end, duration), format), capacity)
  {
    var rest := Map(Candidates(next, end, duration), format);
    assert Candidates(current, end, duration) == [current] + Candidates(next, end, duration);
    assert Map(Candidates(current, end, duration), format) == [format(current)] + rest;
    FilterCons(format(current), rest, (l: string) => !IsBookedOut(capacity, l));
  }

  /** Appending what one turn keeps, then what the later turns keep. */
  lemma StepAppend<T>(done: seq<T>, kept: seq<T>, rest: seq<T>, todo: seq<T>, all: seq<T>)
    requires done + todo == all && todo == kept + rest
    ensures (done + kept) + rest == all
  {
  }

  /**
   * The slot loop of the picker.  With no date selected there are no slots;
   * otherwise the default window is walked one slot duration at a time and
   * every label whose capacity entry is full is dropped.
   */
  method AvailableTimeSlots(selectedDate: Option<string>, w: TimeWindow, duration: int,
                            capacity: Option<CapacityLimit>) returns (slots: seq<string>)
    requires Present(selectedDate) ==> SlotLoopTerminates(w, duration)
    ensures !Present(selectedDate) ==> slots == []
    ensures Present(selectedDate) ==> slots == OfferedSlots(w, duration, capacity)
  {
    slots := [];
    if !Present(selectedDate) {
      return;
    }
    var window := ParseWindow(w);
    if window.None? {
      return;
    }
    slots := WalkWindow(window.value.0, window.value.1, duration, capacity, FormatClock);
  }

  /**
   * The `while (current < end)` loop over one parsed window; each minute is
   * labelled with `format` (the picker passes `FormatClock`).
   */
  method WalkWindow(start: nat, end: nat, duration: int, capacity: Option<CapacityLimit>,
                    format: nat -> string) returns (slots: seq<string>)
    requires duration > 0 || start >= end
    ensures slots == OpenSlots(Map(Candidates(start, end, duration), format), capacity)
  {
    slots := [];
    var current: nat := start;
    while current < end
      invariant duration > 0 || current >= end
      invariant slots + OpenSlots(Map(Candidates(current, end, duration), format), capacity)
             == OpenSlots(Map(Candidates(start, end, duration), format), capacity)
      decreases end - current
    {
      var slotLabel := format(current);
      var entry := SlotEntry(capacity, slotLabel);
      var isBookedOut := entry.Some? && entry.value.bookedCount >= entry.value.limit;
      var next: nat := current + duration;
      OpenSlotsStep(current, next, end, duration, capacity, format);
      if !isBookedOut {
        StepAppend(slots, [slotLabel],
          OpenSlots(Map(Candidates(next, end, duration), format), capacity),
          OpenSlots(Map(Candidates(current, end, duration), format), capacity),
          OpenSlots(Map(Candidates(start, end, duration), format), capacity));
        slots := slots + [slotLabel];
      }
      current := next;
    }
  }

  /** Consecutive candidates are exactly one slot duration apart, from the window start, all inside the window. */
  lemma {:induction false} CandidatesStep(start: nat, end: int, duration: int)
    requires duration > 0
    ensures start < end ==> |Candidates(start, end, duration)| > 0 && Candidates(start, end, duration)[0] == start
    ensures forall i :: 0 <= i < |Candidates(start, end, duration)| - 1 ==>
              Candidates(start, end, duration)[i + 1] == Candidates(start, end, duration)[i] + duration
    ensures forall i :: 0 <= i < |Candidates(start, end, duration)| ==>
              start <= Candidates(start, end, duration)[i] < end
    decreases end - start
  {
    if start < end {
      CandidatesStep(start + duration, end, duration);
    }
  }

  /** The i-th candidate is `start + i * duration`. */
  lemma {:induction false} CandidateAt(start: nat, end: int, duration: int, i: nat)
    requires duration > 0 && i < |Candidates(start, end, duration)|
    ensures Candidates(start, end, duration)[i] == start + i * duration
    decreases i
  {
    if i > 0 {
      CandidateAt(start + duration, end, duration, i - 1);
    }
  }

  lemma MulBounds(k: int, d: int)
    requires d > 0
    ensures k >= 1 ==> k * d >= d
    ensures k <= -1 ==> k * d <= -d
  {
  }

  lemma DivUnique(a: int, d: int, q: int, r: int)
    requires d > 0 && 0 <= r < d && a == q * d + r
    ensures a / d == q && a % d == r
  {
    var q0, r0 := a / d, a % d;
    assert (q0 - q) * d == r - r0;
    MulBounds(q0 - q, d);
  }

  /** The loop runs `ceil((end - start) / duration)` times. */
  lemma {:induction false} CandidateCount(start: nat, end: int, duration: int)
    requires duration > 0
    ensures |Candidates(start, end, duration)| == if start < end then (end - start + duration - 1) / duration else 0
    decreases end - start
  {
    if start < end {
      CandidateCount(start + duration, end, duration);
      var x := end - start;
      if start + duration < end {
        var q, r := (x - 1) / duration, (x - 1) % duration;
        DivUnique(x - 1 + duration, duration, q + 1, r);
      } else {
        DivUnique(x + duration - 1, duration, 1, x - 1);
      }
    }
  }

  /** When the duration divides the window, the loop runs `(end - start) / duration` times. */
  lemma ExactWindowCount(start: nat, end: int, duration: int)
    requires duration > 0 && start <= end && (end - start) % duration == 0
    ensures |Candidates(start, end, duration)| == (end - start) / duration
  {
    CandidateCount(start, end, duration);
    if start < end {
      var q := (end - start) / duration;
      DivUnique(end - start + duration - 1, duration, q, duration - 1);
    }
  }

  /**
   * The last candidate starts before the window end and its slot reaches or
   * passes the end; it ends exactly at the end iff the duration divides the
   * window, so a final partial slot is kept, not dropped.
   */
  lemma {:induction false} LastCandidate(start: nat, end: int, duration: int)
    requires duration > 0 && start < end
    ensures var c := Candidates(start, end, duration);
      |c| > 0 && c[|c| - 1] < end <= c[|c| - 1] + duration
      && (c[|c| - 1] + duration == end <==> (end - start) % duration == 0)
    decreases end - start
  {
    var x := end - start;
    if start + duration >= end {
      if x == duration {
        DivUnique(x, duration, 1, 0);
      } else {
        DivUnique(x, duration, 0, x);
      }
    } else {
      LastCandidate(start + duration, end, duration);
      DivUnique(x, duration, (x - duration) / duration + 1, (x - duration) % duration);
    }
  }

  /** A minute is a candidate iff it lies in the window on the slot grid. */
  lemma {:induction false} CandidateMember(start: nat, end: int, duration: int, m: int)
    requires duration > 0
    ensures m in Candidates(start, end, duration) <==> start <= m < end && (m - start) % duration == 0
    decreases end - start
  {
    if start < end {
      CandidateMember(start + duration, end, duration, m);
      var q, r := (m - start) / duration, (m - start) % duration;
      DivUnique(m - start - duration, duration, q - 1, r);
      if start < m && r == 0 {
        assert m - start == q * duration;
        MulBounds(q, duration);
      }
    }
  }

  /**
   * A minute of the window's slot grid is offered iff its label is not booked
   * out; a label with no capacity entry is always offered.
   */
  lemma OfferedSlotMember(start: nat, end: int, duration: int, capacity: Option<CapacityLimit>, m: nat)
    requires duration > 0
    ensures FormatClock(m) in OpenSlots(Map(Candidates(start, end, duration), FormatClock), capacity)
        <==> start <= m < end && (m - start) % duration == 0 && !IsBookedOut(capacity, FormatClock(m))
  {
    var c := Candidates(start, end, duration);
    var labels := Map(c, FormatClock);
    var p := (l: string) => !IsBookedOut(capacity, l);
    var offered := Filter(labels, p);
    CandidateMember(start, end, duration, m);
    if FormatClock(m) in offered {
      var i :| 0 <= i < |offered| && offered[i] == FormatClock(m);
      assert offered[i] in labels;
      var j :| 0 <= j < |labels| && labels[j] == FormatClock(m);
      MapAt(c, FormatClock, j);
      FormatClockInjective(c[j], m);
    }
    if m in c && !IsBookedOut(capacity, FormatClock(m)) {
      var j :| 0 <= j < |c| && c[j] == m;
      MapAt(c, FormatClock, j);
      assert labels[j] == FormatClock(m);
    }
  }

  predicate HasFullEntry(entries: seq<SlotCapacity>, slotLabel: string) {
    exists k :: 0 <= k < |entries| && entries[k].timeSlot == slotLabel && entries[k].bookedCount >= entries[k].limit
  }

  /** A label that is booked out has a full entry in the ledger: free slots are never dropped. */
  lemma BookedOutHasFullEntry(capacity: Option<CapacityLimit>, slotLabel: string)
    requires IsBookedOut(capacity, slotLabel)
    ensures capacity.Some? && capacity.value.timeSlotCapacity.Some?
    ensures HasFullEntry(capacity.value.timeSlotCapacity.value, slotLabel)
  {
    var e := SlotEntry(capacity, slotLabel).value;
    var entries := capacity.value.timeSlotCapacity.value;
    assert e in entries;
  }

  /** With one entry per label, a slot is booked out iff its entry is full. */
  lemma BookedOutUniqueLabels(c: CapacityLimit, entries: seq<SlotCapacity>, k: nat)
    requires c.timeSlotCapacity == Some(entries) && k < |entries|
    requires forall j :: 0 <= j < |entries| && j != k ==> entries[j].timeSlot != entries[k].timeSlot
    ensures IsBookedOut(Some(c), entries[k].timeSlot) <==> entries[k].bookedCount >= entries[k].limit
  {
    FindFirst(entries, (t: SlotCapacity) => t.timeSlot == entries[k].timeSlot, k);
  }

  // ---------------------------------------------------------------------------
  // Seven-day window

  datatype DayEntry = DayEntry(day: int, dateString: string, isSelectable: bool)

  /** Some exception for the weekday says closed (`dayExceptions.some(...)`). */
  predicate ClosedOn(exceptions: seq<DayException>, w: Weekday) {
    exists k :: 0 <= k < |exceptions| && exceptions[k].dayOfWeek == w && exceptions[k].isClosed
  }

  /** `getCapacityForDate(key)?.isBlackoutDay || false`. */
  predicate IsBlackoutDate(ledger: seq<CapacityLimit>, key: string) {
    var c := Data.FindCapacity(ledger, key);
    c.Some? && c.value.isBlackoutDay
  }

  /**
   * The runtime's calendar: the local weekday of a day number (`getDay`) and
   * its ledger key (`toISOString().split('T')[0]`, which is taken in UTC).
   */
  datatype Clock = Clock(weekday: int -> Weekday, dateKey: int -> string)

  /** The entry for day number `day`: its ledger key, and pickable iff not closed and not a blackout. */
  predicate EntryFor(e: DayEntry, day: int, config: ScheduleConfig, ledger: seq<CapacityLimit>, clock: Clock) {
    e.day == day
    && e.dateString == clock.dateKey(day)
    && (e.isSelectable <==> !ClosedOn(config.dayExceptions, clock.weekday(day)) && !IsBlackoutDate(ledger, e.dateString))
  }

  /**
   * The seven consecutive days from the lead-time boundary, each with its
   * ledger key and whether it can be picked.
   */
  method SelectableDays(config: ScheduleConfig, ledger: seq<CapacityLimit>, nowMinute: int, clock: Clock)
    returns (days: seq<DayEntry>)
    ensures |days| == 7
    ensures forall i :: 0 <= i < 7 ==>
      EntryFor(days[i], MinOrderDay(nowMinute, config.minLeadTimeHours) + i, config, ledger, clock)
  {
    var first := MinOrderDay(nowMinute, config.minLeadTimeHours);
    days := [];
    for i := 0 to 7
      invariant |days| == i
      invariant forall k :: 0 <= k < i ==> EntryFor(days[k], first + k, config, ledger, clock)
    {
      var day := first + i;
      var dateString := clock.dateKey(day);
      var isClosed := ClosedOn(config.dayExceptions, clock.weekday(day));
      var capacity := Data.FindCapacity(ledger, dateString);
      var isBlackout := capacity.Some? && capacity.value.isBlackoutDay;
      days := days + [DayEntry(day, dateString, !isClosed && !isBlackout)];
    }
  }

  // ---------------------------------------------------------------------------
  // Fulfilment timestamp

  /** The JavaScript `Date` constructor's year rule: 0..99 mean 1900..1999. */
  function FullYear(y: int): int {
    if 0 <= y <= 99 then 1900 + y else y
  }

  /** `new Date(year, month - 1, day, hour, minute)` from `YYYY-MM-DD` split on '-' and `HH:mm` split on ':'. */
  function ComposeTimestamp(dateString: string, time: string): Timestamp {
    var d := Split(dateString, '-');
    if |d| < 3 then InvalidDate
    else
      match (JsNumber(d[0]), JsNumber(d[1]), JsNumber(d[2]), ParseClockFields(time))
      case (Some(y), Some(mo), Some(dd), Some((h, mi))) => LocalDateTime(FullYear(y), mo as int - 1, dd, h, mi)
      case _ => InvalidDate
  }

  /** What the picker hands its parent: a timestamp when a date and a time are both set, else null. */
  function EmittedTimestamp(date: Option<string>, time: Option<string>): (r: Option<Timestamp>)
    ensures r.Some? <==> Present(date) && Present(time)
  {
    if Present(date) && Present(time) then Some(ComposeTimestamp(date.value, time.value)) else None
  }

  /** A four-digit year field holds no '-' and reads back as the year. */
  lemma YearField(y: nat)
    requires y <= 9999
    ensures '-' !in YearString(y) && YearString(y) != ""
    ensures JsNumber(YearString(y)) == Some(y)
  {
    PaddedDigits(y, 4);
    DigitsHaveNoSeparator(YearString(y), '-');
    NumberOfPadded(y, 4);
  }

  lemma ComposeFields(dateString: string, time: string, ys: string, ms: string, ds: string,
                      y: nat, mo: nat, d: nat, h: nat, mi: nat)
    requires Split(dateString, '-') == [ys, ms, ds]
    requires JsNumber(ys) == Some(y) && JsNumber(ms) == Some(mo) && JsNumber(ds) == Some(d)
    requires ParseClockFields(time) == Some((h, mi))
    ensures ComposeTimestamp(dateString, time) == LocalDateTime(FullYear(y), mo - 1, d, h, mi)
  {
  }

  lemma ClockNonEmpty(m: nat)
    ensures FormatClock(m) != ""
  {
    assert |FormatClock(m)| == |Pad2(m / 60)| + 1 + |Pad2(m % 60)|;
  }

  lemma IsoDateSplit(c: CivilDate)
    requires 0 <= c.year <= 9999 && c.month >= 0 && c.day >= 0
    ensures Split(IsoDate(c), '-') == [YearString(c.year), Pad2(c.month), Pad2(c.day)]
  {
    YearField(c.year);
    Pad2Field(c.month, '-');
    Pad2Field(c.day, '-');
    SplitJoin3(YearString(c.year), Pad2(c.month), Pad2(c.day), '-');
  }

  /**
   * A picked day and slot yield exactly that date's year, month and day and
   * the slot's hour and minute (the month 0-based, as `Date` keeps it).
   */
  lemma EmittedForSlot(c: CivilDate, m: nat)
    requires 100 <= c.year <= 9999 && c.month >= 0 && c.day >= 0
    ensures EmittedTimestamp(Some(IsoDate(c)), Some(FormatClock(m)))
         == Some(LocalDateTime(c.year, c.month - 1, c.day, m / 60, m % 60))
  {
    IsoDateSplit(c);
    ClockFieldsRoundTrip(m);
    YearField(c.year);
    Pad2Field(c.month, '-');
    Pad2Field(c.day, '-');
    ComposeFields(IsoDate(c), FormatClock(m), YearString(c.year), Pad2(c.month), Pad2(c.day),
      c.year, c.month, c.day, m / 60, m % 60);
    assert IsoDate(c)[0] == YearString(c.year)[0];
    ClockNonEmpty(m);
  }

  // ---------------------------------------------------------------------------
  // What the slot area shows

  datatype SlotPanel = NoPanel | BlackoutNotice | NoSlotsNotice | SlotButtons(times: seq<string>)

  /**
   * The time-slot area: hidden with no date; the blackout notice when the
   * date's ledger entry is a blackout, whatever the slot list holds; else the
   * slot buttons or the "no slots" notice.
   */
  function Panel(date: Option<string>, capacity: Option<CapacityLimit>, slots: seq<string>): (p: SlotPanel)
    ensures p.SlotButtons? ==> p.times == slots && |slots| > 0
    ensures p == BlackoutNotice <==> Present(date) && capacity.Some? && capacity.value.isBlackoutDay
  {
    if !Present(date) then NoPanel
    else if capacity.Some? && capacity.value.isBlackoutDay then BlackoutNotice
    else if |slots| > 0 then SlotButtons(slots)
    else NoSlotsNotice
  }

  // ---------------------------------------------------------------------------
  // Selection state

  class Picker {
    const config: ScheduleConfig
    const ledger: seq<CapacityLimit>
    var selectedDateString: Option<string>
    var selectedTime: Option<string>
    var capacityData: Option<CapacityLimit>

    /** The capacity effect has run: the capacity shown is the selected date's entry. */
    ghost predicate Valid()
      reads this
    {
      capacityData == if Present(selectedDateString) then Data.FindCapacity(ledger, selectedDateString.value) else None
    }

    constructor(config: ScheduleConfig, ledger: seq<CapacityLimit>)
      ensures Valid()
      ensures this.config == config && this.ledger == ledger
      ensures selectedDateString == None && selectedTime == None
    {
      this.config := config;
      this.ledger := ledger;
      selectedDateString := None;
      selectedTime := None;
      capacityData := None;
    }

    /** The slot buttons currently on screen. */
    function ShownSlots(): seq<string>
      reads this
      requires SlotLoopTerminates(config.defaultWindow, config.slotDurationMinutes)
    {
      var slots := if Present(selectedDateString)
        then OfferedSlots(config.defaultWindow, config.slotDurationMinutes, capacityData) else [];
      var p := Panel(selectedDateString, capacityData, slots);
      if p.SlotButtons? then p.times else []
    }

    function Emitted(): Option<Timestamp>
      reads this
    {
      EmittedTimestamp(selectedDateString, selectedTime)
    }

    /**
     * A click on a day button.  A day that cannot be picked is disabled and
     * ignores it; picking the date already selected changes nothing (the
     * reset effect only runs when the date changes); a new date clears the
     * time and loads the date's capacity.  Buttons exist only for the entries
     * of the seven-day list, so the entry is one of those days' entries as
     * `SelectableDays` builds them for the same clock.
     */
    method ClickDay(entry: DayEntry, nowMinute: int, clock: Clock)
      requires Valid()
      requires MinOrderDay(nowMinute, config.minLeadTimeHours) <= entry.day < MinOrderDay(nowMinute, config.minLeadTimeHours) + 7
      requires EntryFor(entry, entry.day, config, ledger, clock)
      modifies this
      ensures Valid()
      ensures if entry.isSelectable && old(selectedDateString) != Some(entry.dateString)
        then selectedDateString == Some(entry.dateString) && selectedTime == None
        else selectedDateString == old(selectedDateString) && selectedTime == old(selectedTime)
      ensures old(selectedDateString) != selectedDateString ==> Emitted() == None
    {
      if entry.isSelectable && selectedDateString != Some(entry.dateString) {
        selectedDateString := Some(entry.dateString);
        capacityData := if entry.dateString != "" then Data.FindCapacity(ledger, entry.dateString) else None;
        selectedTime := None;
      }
    }

    /** A click on a time: only the slot buttons on screen react to it. */
    method ClickSlot(time: string)
      requires Valid()
      requires SlotLoopTerminates(config.defaultWindow, config.slotDurationMinutes)
      modifies this
      ensures Valid()
      ensures selectedDateString == old(selectedDateString)
      ensures selectedTime == if time in old(ShownSlots()) then Some(time) else old(selectedTime)
    {
      var slots := AvailableTimeSlots(selectedDateString, config.defaultWindow, config.slotDurationMinutes, capacityData);
      var panel := Panel(selectedDateString, capacityData, slots);
      ghost var shown := if panel.SlotButtons? then panel.times else [];
      assert shown == ShownSlots();
      if panel.SlotButtons? && time in panel.times {
        selectedTime := Some(time);
      }
    }
  }
}
