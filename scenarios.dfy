/**
 * The mock data (src/lib/data.ts) run through the model: the slot generator
 * under the mock schedule, the capacity ledger's effect on 2025-11-15, the
 * blackout on 2025-11-16, the lead-time boundary, and the cake's prices.
 * Day numbers count days since 1970-01-01; 20407 is 2025-11-15.
 */
module Scenarios {
  import opened Wrappers
  import opened JsText
  import opened JsArray
  import opened ScheduleTypes
  import opened ProductTypes
  import opened Calendar
  import opened Data
  import opened DatePicker
  import opened CakeForm

  /** The mock default window is 09:00 to 17:00, that is minutes 540 to 1020. */
  lemma MockWindow()
    ensures ParseWindow(MockScheduleConfig().defaultWindow) == Some((540, 1020))
  {
    assert FormatClock(540) == "09:00";
    assert FormatClock(1020) == "17:00";
    ClockRoundTrip(540);
    ClockRoundTrip(1020);
  }

  /** The two-digit field of a number below 100. */
  lemma TwoDigits(n: nat)
    requires n < 100
    ensures Pad2(n) == [DigitChar(n / 10), DigitChar(n % 10)]
  {
    if n < 10 {
      assert Decimal(n) == [DigitChar(n)];
      assert PadStart([DigitChar(n)], 2, '0') == PadStart(['0', DigitChar(n)], 2, '0');
    } else {
      assert Digits(n) == Digits(n / 10) + [DigitChar(n % 10)];
    }
  }

  /** A slot on the hour reads `HH:00`. */
  lemma OnTheHour(h: nat)
    requires h < 24
    ensures FormatClock(h * 60) == [DigitChar(h / 10), DigitChar(h % 10), ':', '0', '0']
  {
    TwoDigits(h);
    TwoDigits(0);
    assert (h * 60) / 60 == h && (h * 60) % 60 == 0;
  }

  /** The labels of the hours 09:00 to 16:00. */
  lemma HourLabels()
    ensures FormatClock(540) == "09:00" && FormatClock(600) == "10:00"
    ensures FormatClock(660) == "11:00" && FormatClock(720) == "12:00"
    ensures FormatClock(780) == "13:00" && FormatClock(840) == "14:00"
    ensures FormatClock(900) == "15:00" && FormatClock(960) == "16:00"
  {
    OnTheHour(9);
    OnTheHour(10);
    OnTheHour(11);
    OnTheHour(12);
    OnTheHour(13);
    OnTheHour(14);
    OnTheHour(15);
    OnTheHour(16);
  }

  /** Hourly slots over the mock window: eight candidates, 09:00 through 16:00. */
  lemma MockCandidates()
    ensures Candidates(540, 1020, 60) == [540, 600, 660, 720, 780, 840, 900, 960]
  {
  }

  /** Mapping over eight elements, written out. */
  lemma MapEight<T, U>(a: T, b: T, c: T, d: T, e: T, f: T, g: T, h: T, fn: T -> U)
    ensures Map([a, b, c, d, e, f, g, h], fn) == [fn(a), fn(b), fn(c), fn(d), fn(e), fn(f), fn(g), fn(h)]
  {
    var s := [a, b, c, d, e, f, g, h];
    var r := [fn(a), fn(b), fn(c), fn(d), fn(e), fn(f), fn(g), fn(h)];
    forall i | 0 <= i < 8 ensures Map(s, fn)[i] == r[i] {
      MapAt(s, fn, i);
    }
  }

  lemma MockLabels()
    ensures Map(Candidates(540, 1020, 60), FormatClock)
         == ["09:00", "10:00", "11:00", "12:00", "13:00", "14:00", "15:00", "16:00"]
  {
    MockCandidates();
    HourLabels();
    MapEight<nat, string>(540, 600, 660, 720, 780, 840, 900, 960, FormatClock);
  }

  /** On 2025-11-15 only 12:00 is full (1 of 1); 14:00 is booked 2 of 3, and no other slot has an entry. */
  lemma Nov15BookedOut(slotLabel: string)
    ensures IsBookedOut(GetCapacityForDate("2025-11-15"), slotLabel) <==> slotLabel == "12:00"
  {
    var c := MockCapacity()[0];
    assert GetCapacityForDate("2025-11-15") == Some(c);
    var entries := [SlotCapacity("12:00", 1, 1), SlotCapacity("14:00", 3, 2)];
    assert c.timeSlotCapacity == Some(entries);
    var e := Find(entries, (t: SlotCapacity) => t.timeSlot == slotLabel);
    if slotLabel == "12:00" {
      assert e == Some(entries[0]);
    } else if slotLabel == "14:00" {
      assert e == Some(entries[1]);
    } else {
      assert e == None;
    }
  }

  /** Of eight elements where only the fourth fails `p`, the other seven stay in order. */
  lemma FilterDropFourth<T>(a: T, b: T, c: T, d: T, e: T, f: T, g: T, h: T, p: T -> bool)
    requires !p(d) && p(a) && p(b) && p(c) && p(e) && p(f) && p(g) && p(h)
    ensures Filter([a, b, c, d, e, f, g, h], p) == [a, b, c, e, f, g, h]
  {
    var s7 := [h];
    var s6 := [g] + s7;
    var s5 := [f] + s6;
    var s4 := [e] + s5;
    var s3 := [d] + s4;
    var s2 := [c] + s3;
    var s1 := [b] + s2;
    var s0 := [a] + s1;
    var r4 := [e] + s5;
    var r2 := [c] + r4;
    var r1 := [b] + r2;
    var r0 := [a] + r1;
    assert s0 == [a, b, c, d, e, f, g, h];
    assert r0 == [a, b, c, e, f, g, h];
    assert s7 == [h] + [];
    FilterCons(h, [], p);
    FilterCons(g, s7, p);
    FilterCons(f, s6, p);
    FilterCons(e, s5, p);
    assert Filter(s4, p) == r4;
    FilterCons(d, s4, p);
    FilterCons(c, s3, p);
    FilterCons(b, s2, p);
    FilterCons(a, s1, p);
  }


  /** Under the mock schedule the generator offers the open ones among the eight hourly labels. */
  lemma MockOffered(capacity: Option<CapacityLimit>)
    ensures OfferedSlots(MockScheduleConfig().defaultWindow, 60, capacity)
         == OpenSlots(["09:00", "10:00", "11:00", "12:00", "13:00", "14:00", "15:00", "16:00"], capacity)
  {
    MockWindow();
    MockLabels();
  }

  /** 2025-11-15 offers seven slots: every hour from 09:00 to 16:00 but 12:00. */
  lemma Nov15Offered()
    ensures OfferedSlots(MockScheduleConfig().defaultWindow, 60, GetCapacityForDate("2025-11-15"))
         == ["09:00", "10:00", "11:00", "13:00", "14:00", "15:00", "16:00"]
  {
    var c := GetCapacityForDate("2025-11-15");
    MockOffered(c);
    Nov15BookedOut("09:00");
    Nov15BookedOut("10:00");
    Nov15BookedOut("11:00");
    Nov15BookedOut("12:00");
    Nov15BookedOut("13:00");
    Nov15BookedOut("14:00");
    Nov15BookedOut("15:00");
    Nov15BookedOut("16:00");
    FilterDropFourth("09:00", "10:00", "11:00", "12:00", "13:00", "14:00", "15:00", "16:00",
                     (l: string) => !IsBookedOut(c, l));
  }

  lemma Civil15()
    ensures CivilFromDays(20407) == CivilDate(2025, 11, 15)
  {
    assert 739875 / 146097 == 5;
    assert 9390 / 1460 == 6 && 9390 / 36524 == 0 && 9390 / 146096 == 0;
    assert 9384 / 365 == 25;
    assert 25 / 4 == 6 && 25 / 100 == 0;
    assert 1297 / 153 == 8;
    assert 1226 / 5 == 245;
  }

  lemma Civil16()
    ensures CivilFromDays(20408) == CivilDate(2025, 11, 16)
  {
    assert 739876 / 146097 == 5;
    assert 9391 / 1460 == 6 && 9391 / 36524 == 0 && 9391 / 146096 == 0;
    assert 9385 / 365 == 25;
    assert 25 / 4 == 6 && 25 / 100 == 0;
    assert 1302 / 153 == 8;
    assert 1226 / 5 == 245;
  }

  /** 2025-11-15 is a Saturday and 2025-11-16 a Sunday. */
  lemma Weekdays()
    ensures EpochWeekday(20407) == Saturday && EpochWeekday(20408) == Sunday
  {
    assert 20408 % 7 == 3 && 20407 % 7 == 2;
  }

  lemma IsoDates()
    ensures IsoDate(CivilDate(2025, 11, 15)) == "2025-11-15"
    ensures IsoDate(CivilDate(2025, 11, 16)) == "2025-11-16"
  {
    assert Digits(2025) == "2025";
    assert YearString(2025) == "2025";
    TwoDigits(11);
    TwoDigits(15);
    TwoDigits(16);
  }

  lemma LedgerKeys()
    ensures DateKey(20407) == "2025-11-15"
    ensures DateKey(20408) == "2025-11-16"
  {
    Civil15();
    Civil16();
    IsoDates();
  }

  /**
   * Ordering at 10:30 on 2025-11-13 under the mock schedule's 48-hour lead
   * time (the picker reads the schedule's lead time, not the product's)
   * opens the list at 2025-11-15.
   */
  lemma LeadTimeBoundary()
    ensures MinOrderDay(20405 * 1440 + 630, MockScheduleConfig().minLeadTimeHours) == 20407
  {
    var day := MinOrderDay(20405 * 1440 + 630, 48);
    assert day * 1440 <= 20405 * 1440 + 630 + 2880 < day * 1440 + 1440;
  }

  /** The mock schedule closes on Sundays only; the mock ledger blacks out 2025-11-16 and not 2025-11-15. */
  lemma MockClosures()
    ensures ClosedOn(MockScheduleConfig().dayExceptions, Sunday)
    ensures !ClosedOn(MockScheduleConfig().dayExceptions, Saturday)
    ensures IsBlackoutDate(MockCapacity(), "2025-11-16")
    ensures !IsBlackoutDate(MockCapacity(), "2025-11-15")
  {
    assert MockScheduleConfig().dayExceptions[0].dayOfWeek == Sunday;
    assert Data.FindCapacity(MockCapacity(), "2025-11-16") == Some(MockCapacity()[1]);
    assert Data.FindCapacity(MockCapacity(), "2025-11-15") == Some(MockCapacity()[0]);
  }

  /** Under the mock schedule, Saturday 2025-11-15 can be picked. */
  lemma SaturdayOpen(saturday: DayEntry)
    requires EntryFor(saturday, 20407, MockScheduleConfig(), MockCapacity(), Clock(EpochWeekday, DateKey))
    ensures saturday.dateString == "2025-11-15" && saturday.isSelectable
  {
    Weekdays();
    LedgerKeys();
    MockClosures();
  }

  /** Sunday 2025-11-16 cannot: it is closed on Sundays, and the ledger marks it a blackout. */
  lemma SundayClosed(sunday: DayEntry)
    requires EntryFor(sunday, 20408, MockScheduleConfig(), MockCapacity(), Clock(EpochWeekday, DateKey))
    ensures sunday.dateString == "2025-11-16" && !sunday.isSelectable
  {
    Weekdays();
    LedgerKeys();
    MockClosures();
  }

  /** With 2025-11-16 selected the slot area shows the blackout notice, whatever slots were computed. */
  lemma Nov16Panel(slots: seq<string>)
    ensures Panel(Some("2025-11-16"), GetCapacityForDate("2025-11-16"), slots) == BlackoutNotice
  {
    assert GetCapacityForDate("2025-11-16") == Some(MockCapacity()[1]);
  }

  /** Picking 2025-11-15 at 14:00 emits 14:00 on 15 November 2025 (month index 10). */
  lemma Nov15Timestamp()
    ensures EmittedTimestamp(Some("2025-11-15"), Some("14:00")) == Some(LocalDateTime(2025, 10, 15, 14, 0))
  {
    EmittedForSlot(CivilDate(2025, 11, 15), 840);
    assert 840 / 60 == 14 && 840 % 60 == 0;
    IsoDates();
    HourLabels();
  }

  lemma AdjustmentsOfTwo(g0: OptionGroup, g1: OptionGroup, sel: Selections)
    ensures AdjustmentsTotal([g0, g1], sel) == GroupAdjustment(g0, sel) + GroupAdjustment(g1, sel)
  {
    var two := [g0, g1];
    assert two[..1] == [g0] && two[1] == g1;
    assert [g0][..0] == [];
    assert AdjustmentsTotal([g0], sel) == GroupAdjustment(g0, sel);
    assert AdjustmentsTotal(two, sel) == AdjustmentsTotal(two[..1], sel) + GroupAdjustment(g1, sel);
  }

  lemma EightInchAdjustment(sel: Selections)
    requires "size" in sel && sel["size"] == Text("size_8in")
    ensures GroupAdjustment(MockCake().customizationGroups[0], sel) == 1500
  {
    var g := MockCake().customizationGroups[0];
    SingleSelectPricing(g, sel, "size_8in");
    assert FirstMatch(g.choices.value, "size_8in", 1);
  }

  /** The cake at 25.00 with the 8-inch size is 40.00. */
  lemma EightInchPrice()
    ensures MockCake().basePrice + AdjustmentsTotal(MockCake().customizationGroups, map["size" := Text("size_8in")]) == 4000
  {
    var gs := MockCake().customizationGroups;
    var sel: Selections := map["size" := Text("size_8in")];
    assert gs == [gs[0], gs[1]];
    AdjustmentsOfTwo(gs[0], gs[1], sel);
    EightInchAdjustment(sel);
    TextInputPricing(gs[1], sel);
  }

  lemma InscriptionAdjustment(sel: Selections, inscription: string)
    requires "inscription" in sel && sel["inscription"] == Text(inscription)
    requires |inscription| > 0 && !IsJsWhitespace(inscription[0])
    ensures GroupAdjustment(MockCake().customizationGroups[1], sel) == 200
  {
    TextInputPricing(MockCake().customizationGroups[1], sel);
    TrimEmptyIff(inscription);
  }

  /** Adding an inscription that does not start with whitespace makes it 42.00. */
  lemma InscribedPrice(inscription: string)
    requires |inscription| > 0 && !IsJsWhitespace(inscription[0])
    ensures MockCake().basePrice + AdjustmentsTotal(MockCake().customizationGroups,
              map["size" := Text("size_8in"), "inscription" := Text(inscription)]) == 4200
  {
    var gs := MockCake().customizationGroups;
    var sel: Selections := map["size" := Text("size_8in"), "inscription" := Text(inscription)];
    assert gs == [gs[0], gs[1]];
    AdjustmentsOfTwo(gs[0], gs[1], sel);
    EightInchAdjustment(sel);
    InscriptionAdjustment(sel, inscription);
  }
}
