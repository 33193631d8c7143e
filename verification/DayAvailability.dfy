/**
 The available-slots request: the bookings of a provider that touch a day, and the slots offered
 from the provider's open intervals of that day.
 */
module DayAvailability {
  import opened Common
  import opened BookingTypes
  import opened SlotEngine

  const MINUTE := 60 * 1000
  const DAY := 24 * 60 * MINUTE
  // 23:59:59.999, where the query's day ends.
  const END_OF_DAY := DAY - 1

  datatype OpenInterval = OpenInterval(startMinutes: int, endMinutes: int)

  // ------------------------------------------------------------------------------------------
  // The day filter of the booking query
  // ------------------------------------------------------------------------------------------

  // A booking that takes up the provider's time.
  predicate Blocks(row: Booking, provider: Id) {
    row.provider == provider && row.status != Cancelled
  }

  predicate Fetched(row: Booking, provider: Id, startOfDay: int) {
    Blocks(row, provider) && row.slotStart < startOfDay + END_OF_DAY && row.slotEnd > startOfDay
  }

  function SlotTime(row: Booking): Interval {
    Interval(row.slotStart, row.slotEnd)
  }

  function FindBookingsByProviderAndDate(rows: seq<Booking>, provider: Id, startOfDay: int): seq<Interval> {
    if rows == [] then
      []
    else
      FindBookingsByProviderAndDate(rows[..|rows| - 1], provider, startOfDay) +
      if Fetched(rows[|rows| - 1], provider, startOfDay) then [SlotTime(rows[|rows| - 1])] else []
  }

  // Some booking of the provider, in any status but cancelled, takes up the instant.
  ghost predicate Occupied(t: int, rows: seq<Booking>, provider: Id) {
    exists i :: 0 <= i < |rows| && rows[i].provider == provider && rows[i].status != Cancelled &&
                rows[i].slotStart <= t < rows[i].slotEnd
  }

  ghost predicate FetchedAt(t: int, rows: seq<Booking>, provider: Id, startOfDay: int) {
    exists i :: 0 <= i < |rows| && Fetched(rows[i], provider, startOfDay) && In(t, SlotTime(rows[i]))
  }

  lemma {:induction false} CoveredMeansFetched(t: int, rows: seq<Booking>, provider: Id, startOfDay: int)
    ensures Covered(t, FindBookingsByProviderAndDate(rows, provider, startOfDay))
            <==> FetchedAt(t, rows, provider, startOfDay)
  {
    if rows == [] {
    } else {
      var front, last := rows[..|rows| - 1], rows[|rows| - 1];
      var found := FindBookingsByProviderAndDate(front, provider, startOfDay);
      var more := if Fetched(last, provider, startOfDay) then [SlotTime(last)] else [];
      CoveredMeansFetched(t, front, provider, startOfDay);
      CoveredByConcat(t, found, more);
      assert Covered(t, more) <==> Fetched(last, provider, startOfDay) && In(t, SlotTime(last)) by {
        assert Fetched(last, provider, startOfDay) ==> more[0] == SlotTime(last);
      }
      assert rows == front + [last];
      if FetchedAt(t, front, provider, startOfDay) {
        var i :| 0 <= i < |front| && Fetched(front[i], provider, startOfDay) && In(t, SlotTime(front[i]));
        assert rows[i] == front[i];
      }
    }
  }

  // Up to 23:59:59.999 exclusive, the fetched bookings occupy the instants all bookings occupy.
  lemma DayFilterLosesNothing(t: int, rows: seq<Booking>, provider: Id, startOfDay: int)
    requires startOfDay <= t < startOfDay + END_OF_DAY
    ensures Covered(t, FindBookingsByProviderAndDate(rows, provider, startOfDay)) <==> Occupied(t, rows, provider)
  {
    CoveredMeansFetched(t, rows, provider, startOfDay);
    if Occupied(t, rows, provider) {
      var i :| 0 <= i < |rows| && rows[i].provider == provider && rows[i].status != Cancelled &&
               rows[i].slotStart <= t < rows[i].slotEnd;
      assert Fetched(rows[i], provider, startOfDay);
    }
  }

  function LastMillisecondBooking(provider: Id, startOfDay: int): (row: Booking)
    ensures Blocks(row, provider) && row.slotStart < row.slotEnd
    ensures !Fetched(row, provider, startOfDay)
    ensures In(startOfDay + END_OF_DAY, SlotTime(row))
  {
    Booking(None, 0, provider, Confirmed, startOfDay + END_OF_DAY, startOfDay + DAY + 30 * MINUTE, 100,
            None, None, None, None, None, None, None, None, None, None)
  }

  // Of all instants of the day only the last millisecond can be lost.
  lemma DayFilterIsExactBeforeLastMillisecond(t: int, provider: Id, startOfDay: int)
    requires startOfDay <= t < startOfDay + DAY
    ensures (forall rows ::
               Covered(t, FindBookingsByProviderAndDate(rows, provider, startOfDay)) <==> Occupied(t, rows, provider))
            <==> t < startOfDay + END_OF_DAY
  {
    if t < startOfDay + END_OF_DAY {
      forall rows
        ensures Covered(t, FindBookingsByProviderAndDate(rows, provider, startOfDay)) <==> Occupied(t, rows, provider)
      {
        DayFilterLosesNothing(t, rows, provider, startOfDay);
      }
    } else {
      var rows := [LastMillisecondBooking(provider, startOfDay)];
      assert rows[0].slotStart <= t < rows[0].slotEnd;
      CoveredMeansFetched(t, rows, provider, startOfDay);
    }
  }

  // ------------------------------------------------------------------------------------------
  // The request
  // ------------------------------------------------------------------------------------------

  function RangeOf(open: OpenInterval, startOfDay: int): Interval {
    Interval(startOfDay + open.startMinutes * MINUTE, startOfDay + open.endMinutes * MINUTE)
  }

  // The slots of one open interval, given the booking table as read for it.
  function SlotsFor(open: OpenInterval, rows: seq<Booking>, provider: Id, startOfDay: int, minutes: int)
    : seq<Interval>
    requires minutes > 0
  {
    SlotsOf(Subtract(RangeOf(open, startOfDay), FindBookingsByProviderAndDate(rows, provider, startOfDay)),
            minutes * MINUTE)
  }

  function Available(opens: seq<OpenInterval>, tables: seq<seq<Booking>>, provider: Id, startOfDay: int, minutes: int)
    : seq<Interval>
    requires |opens| == |tables| && minutes > 0
  {
    if opens == [] then
      []
    else
      var n := |opens| - 1;
      Available(opens[..n], tables[..n], provider, startOfDay, minutes) +
      SlotsFor(opens[n], tables[n], provider, startOfDay, minutes)
  }

  // The two inner loops of the request: every free interval is cut up from its start.
  method CutIntoSlots(free: seq<Interval>, d: int) returns (slots: seq<Interval>)
    requires d > 0
    ensures slots == SlotsOf(free, d)
  {
    slots := [];
    for j := 0 to |free|
      invariant slots == SlotsOf(free[..j], d)
    {
      assert free[..j + 1][..j] == free[..j];
      var slotStart := free[j].start;
      while slotStart + d <= free[j].end
        invariant SlotsOf(free[..j + 1], d) == slots + SlotsIn(slotStart, free[j].end, d)
        decreases free[j].end - slotStart
      {
        var slot := Interval(slotStart, slotStart + d);
        slots := slots + [slot];
        slotStart := slotStart + d;
      }
    }
    assert free[..|free|] == free;
  }

  // The booking table is read once per open interval; tables[i] is what the i-th read returns.
  method GetAvailableSlots(opens: seq<OpenInterval>, tables: seq<seq<Booking>>, provider: Id, startOfDay: int,
                           minutes: int)
    returns (slots: seq<Interval>)
    requires |opens| == |tables| && minutes > 0
    ensures slots == Available(opens, tables, provider, startOfDay, minutes)
  {
    slots := [];
    for i := 0 to |opens|
      invariant slots == Available(opens[..i], tables[..i], provider, startOfDay, minutes)
    {
      assert opens[..i + 1][..i] == opens[..i] && tables[..i + 1][..i] == tables[..i];
      var booked := FindBookingsByProviderAndDate(tables[i], provider, startOfDay);
      var free := SubtractBookedFromRange(RangeOf(opens[i], startOfDay), booked);
      var cut := CutIntoSlots(free, minutes * MINUTE);
      slots := slots + cut;
    }
    assert opens[..|opens|] == opens && tables[..|tables|] == tables;
  }

  ghost predicate Overlap(a: Interval, b: Interval) {
    exists t :: In(t, a) && In(t, b)
  }

  // The row is a booking of the provider, not cancelled, that shares an instant with this time.
  predicate Takes(row: Booking, provider: Id, from: int, to: int) {
    && row.provider == provider && row.status != Cancelled
    && row.slotStart < row.slotEnd && row.slotStart < to && from < row.slotEnd
  }

  // A slot of the asked length within the open interval that overlaps no booking of the provider.
  predicate Bookable(s: Interval, open: OpenInterval, rows: seq<Booking>, provider: Id, startOfDay: int, minutes: int) {
    && s.end == s.start + minutes * 60000
    && startOfDay + open.startMinutes * 60000 <= s.start && s.end <= startOfDay + open.endMinutes * 60000
    && forall i :: 0 <= i < |rows| ==> !Takes(rows[i], provider, s.start, s.end)
  }

  // The open intervals for which the day filter is enough: they end by 23:59, or at midnight on a day
  // no booking of the provider starts in the last millisecond of.
  predicate Covers(open: OpenInterval, rows: seq<Booking>, provider: Id, startOfDay: int) {
    && 0 <= open.startMinutes && open.endMinutes <= 1440
    && (open.endMinutes <= 1439 ||
        forall i :: 0 <= i < |rows| && rows[i].provider == provider && rows[i].status != Cancelled ==>
                      rows[i].slotStart != startOfDay + 86399999)
  }

  // Slots within the day overlap no booking, except possibly one that starts at 23:59:59.999 when
  // the open interval runs to midnight.
  lemma SlotsForAreBookable(open: OpenInterval, rows: seq<Booking>, provider: Id, startOfDay: int, minutes: int)
    requires minutes > 0 && Covers(open, rows, provider, startOfDay)
    ensures forall s :: s in SlotsFor(open, rows, provider, startOfDay, minutes) ==>
                          Bookable(s, open, rows, provider, startOfDay, minutes)
  {
    var booked := FindBookingsByProviderAndDate(rows, provider, startOfDay);
    var range := RangeOf(open, startOfDay);
    SlotsAreValid(range, booked, minutes * MINUTE);
    forall s | s in SlotsFor(open, rows, provider, startOfDay, minutes)
      ensures Bookable(s, open, rows, provider, startOfDay, minutes)
    {
      assert FreeSlot(s, range, booked);
      forall i | 0 <= i < |rows| ensures !Takes(rows[i], provider, s.start, s.end) {
        if Takes(rows[i], provider, s.start, s.end) {
          var t := if s.start < rows[i].slotStart then rows[i].slotStart else s.start;
          assert In(t, s) && In(t, SlotTime(rows[i]));
          assert Fetched(rows[i], provider, startOfDay);
          CoveredMeansFetched(t, rows, provider, startOfDay);
        }
      }
    }
  }

  // Every offered slot can be booked as far as the read made for its open interval knows.
  lemma {:induction false} OfferedSlotsAreBookable(opens: seq<OpenInterval>, tables: seq<seq<Booking>>, provider: Id,
                                                   startOfDay: int, minutes: int)
    requires |opens| == |tables| && minutes > 0
    requires forall i :: 0 <= i < |opens| ==> Covers(opens[i], tables[i], provider, startOfDay)
    ensures forall s :: s in Available(opens, tables, provider, startOfDay, minutes) ==>
              exists i :: 0 <= i < |opens| && Bookable(s, opens[i], tables[i], provider, startOfDay, minutes)
  {
    if opens == [] {
    } else {
      var n := |opens| - 1;
      OfferedSlotsAreBookable(opens[..n], tables[..n], provider, startOfDay, minutes);
      SlotsForAreBookable(opens[n], tables[n], provider, startOfDay, minutes);
      forall s | s in Available(opens, tables, provider, startOfDay, minutes)
        ensures exists i :: 0 <= i < |opens| && Bookable(s, opens[i], tables[i], provider, startOfDay, minutes)
      {
        if s in Available(opens[..n], tables[..n], provider, startOfDay, minutes) {
          var i :| 0 <= i < n && Bookable(s, opens[..n][i], tables[..n][i], provider, startOfDay, minutes);
          assert Bookable(s, opens[i], tables[i], provider, startOfDay, minutes);
        }
      }
    }
  }

  ghost predicate Disjoint(ivs: seq<Interval>) {
    forall i, j :: 0 <= i < j < |ivs| ==> !Overlap(ivs[i], ivs[j])
  }

  function Ranges(opens: seq<OpenInterval>, startOfDay: int): seq<Interval> {
    seq(|opens|, i requires 0 <= i < |opens| => RangeOf(opens[i], startOfDay))
  }

  predicate Inside(s: Interval, range: Interval) {
    range.start <= s.start && s.end <= range.end
  }

  lemma SlotsForAreInside(open: OpenInterval, rows: seq<Booking>, provider: Id, startOfDay: int, minutes: int)
    requires minutes > 0
    ensures Disjoint(SlotsFor(open, rows, provider, startOfDay, minutes))
    ensures Timetable(SlotsFor(open, rows, provider, startOfDay, minutes), minutes * MINUTE)
    ensures forall s :: s in SlotsFor(open, rows, provider, startOfDay, minutes) ==> Inside(s, RangeOf(open, startOfDay))
  {
    SlotsAreValid(RangeOf(open, startOfDay), FindBookingsByProviderAndDate(rows, provider, startOfDay), minutes * MINUTE);
  }

  lemma DisjointConcat(a: seq<Interval>, b: seq<Interval>)
    requires Disjoint(a) && Disjoint(b) && forall s, t :: s in a && t in b ==> !Overlap(s, t)
    ensures Disjoint(a + b)
  {
    forall i, j | 0 <= i < j < |a + b| ensures !Overlap((a + b)[i], (a + b)[j]) {
      if i < |a| <= j {
        assert a[i] in a && b[j - |a|] in b;
      }
    }
  }

  lemma {:induction false} OfferedSlotsAreInside(opens: seq<OpenInterval>, tables: seq<seq<Booking>>, provider: Id,
                                                 startOfDay: int, minutes: int)
    requires |opens| == |tables| && minutes > 0
    ensures forall s :: s in Available(opens, tables, provider, startOfDay, minutes) ==>
              exists i :: 0 <= i < |opens| && Inside(s, RangeOf(opens[i], startOfDay))
  {
    if opens == [] {
    } else {
      var n := |opens| - 1;
      OfferedSlotsAreInside(opens[..n], tables[..n], provider, startOfDay, minutes);
      SlotsForAreInside(opens[n], tables[n], provider, startOfDay, minutes);
      forall s | s in Available(opens, tables, provider, startOfDay, minutes)
        ensures exists i :: 0 <= i < |opens| && Inside(s, RangeOf(opens[i], startOfDay))
      {
        if s in Available(opens[..n], tables[..n], provider, startOfDay, minutes) {
          var i :| 0 <= i < n && Inside(s, RangeOf(opens[..n][i], startOfDay));
          assert Inside(s, RangeOf(opens[i], startOfDay));
        }
      }
    }
  }

  // The slots of the whole answer do not overlap one another if the open intervals do not.
  lemma {:induction false} OfferedSlotsAreDisjoint(opens: seq<OpenInterval>, tables: seq<seq<Booking>>, provider: Id,
                                                   startOfDay: int, minutes: int)
    requires |opens| == |tables| && minutes > 0 && Disjoint(Ranges(opens, startOfDay))
    ensures Disjoint(Available(opens, tables, provider, startOfDay, minutes))
  {
    if opens == [] {
    } else {
      var n := |opens| - 1;
      var ranges := Ranges(opens, startOfDay);
      assert Ranges(opens[..n], startOfDay) == ranges[..n];
      var front := Available(opens[..n], tables[..n], provider, startOfDay, minutes);
      var last := SlotsFor(opens[n], tables[n], provider, startOfDay, minutes);
      OfferedSlotsAreDisjoint(opens[..n], tables[..n], provider, startOfDay, minutes);
      OfferedSlotsAreInside(opens[..n], tables[..n], provider, startOfDay, minutes);
      SlotsForAreInside(opens[n], tables[n], provider, startOfDay, minutes);
      forall s, t | s in front && t in last ensures !Overlap(s, t) {
        var i :| 0 <= i < n && Inside(s, RangeOf(opens[..n][i], startOfDay));
        InsideDisjoint(s, t, ranges[i], ranges[n]);
      }
      DisjointConcat(front, last);
    }
  }

  lemma InsideDisjoint(s: Interval, t: Interval, x: Interval, y: Interval)
    requires Inside(s, x) && Inside(t, y) && !Overlap(x, y)
    ensures !Overlap(s, t)
  {
    if Overlap(s, t) {
      var at :| In(at, s) && In(at, t);
      assert In(at, x) && In(at, y);
    }
  }

  // The time fits: it lies in the open interval and meets no booking of the provider that the day's query
  // returns.
  predicate Fits(from: int, open: OpenInterval, rows: seq<Booking>, provider: Id, startOfDay: int, minutes: int) {
    && startOfDay + open.startMinutes * 60000 <= from && from + minutes * 60000 <= startOfDay + open.endMinutes * 60000
    && forall k :: 0 <= k < |rows| && rows[k].slotStart < startOfDay + 86399999 && rows[k].slotEnd > startOfDay ==>
                     !Takes(rows[k], provider, from, from + minutes * 60000)
  }

  ghost predicate FitsSomewhere(from: int, opens: seq<OpenInterval>, tables: seq<seq<Booking>>, provider: Id,
                                startOfDay: int, minutes: int)
    requires |opens| == |tables|
  {
    exists i :: 0 <= i < |opens| && Fits(from, opens[i], tables[i], provider, startOfDay, minutes)
  }

  lemma FittingIsAPacking(family: set<int>, open: OpenInterval, rows: seq<Booking>, provider: Id, startOfDay: int,
                          minutes: int)
    requires minutes > 0 && Spaced(family, minutes * MINUTE)
    requires forall s :: s in family ==> Fits(s, open, rows, provider, startOfDay, minutes)
    ensures Packing(family, RangeOf(open, startOfDay), FindBookingsByProviderAndDate(rows, provider, startOfDay),
                    minutes * MINUTE)
  {
    var booked := FindBookingsByProviderAndDate(rows, provider, startOfDay);
    forall s, t | s in family && s <= t < s + minutes * MINUTE ensures !Covered(t, booked) {
      CoveredMeansFetched(t, rows, provider, startOfDay);
      assert Fits(s, open, rows, provider, startOfDay, minutes);
      forall k | 0 <= k < |rows| && Fetched(rows[k], provider, startOfDay) ensures !In(t, SlotTime(rows[k])) {
        assert !Takes(rows[k], provider, s, s + minutes * MINUTE);
      }
    }
  }

  // The whole answer is complete, and as early as can be: of no family of disjoint slots of the asked
  // length, each within one of the open intervals and off every booking returned for it, are more over by
  // any time than of the answer.
  lemma {:induction false} AnswerIsComplete(family: set<int>, opens: seq<OpenInterval>, tables: seq<seq<Booking>>,
                                            provider: Id, startOfDay: int, minutes: int, at: int)
    requires |opens| == |tables| && minutes > 0
    requires forall s :: s in family ==> FitsSomewhere(s, opens, tables, provider, startOfDay, minutes)
    requires forall s, u :: s in family && u in family && s < u ==> s + minutes * 60000 <= u
    requires forall s :: s in family ==> s + minutes * 60000 <= at
    ensures |family| <= OverBy(Available(opens, tables, provider, startOfDay, minutes), at)
    ensures |family| <= |Available(opens, tables, provider, startOfDay, minutes)|
  {
    hide OverBy, Available, SlotsFor, Fits, Packing;
    if opens == [] {
      forall s ensures s !in family {
        assert !FitsSomewhere(s, opens, tables, provider, startOfDay, minutes);
      }
      assert family == {};
    } else {
      var n, d := |opens| - 1, minutes * MINUTE;
      var inLast := set s | s in family && Fits(s, opens[n], tables[n], provider, startOfDay, minutes);
      var rest := family - inLast;
      forall s | s in rest ensures FitsSomewhere(s, opens[..n], tables[..n], provider, startOfDay, minutes) {
        FitsEarlier(s, opens, tables, provider, startOfDay, minutes);
      }
      AnswerIsComplete(rest, opens[..n], tables[..n], provider, startOfDay, minutes, at);
      FittingIsAPacking(inLast, opens[n], tables[n], provider, startOfDay, minutes);
      var booked := FindBookingsByProviderAndDate(tables[n], provider, startOfDay);
      SlotsComeEarliest(inLast, RangeOf(opens[n], startOfDay), booked, d, at);
      PartsAddUp(family, inLast);
      AnswerOfLast(opens, tables, provider, startOfDay, minutes, at);
    }
    NoMoreThanAll(Available(opens, tables, provider, startOfDay, minutes), at);
  }

  lemma FitsEarlier(s: int, opens: seq<OpenInterval>, tables: seq<seq<Booking>>, provider: Id, startOfDay: int, minutes: int)
    requires |opens| == |tables| && opens != [] && FitsSomewhere(s, opens, tables, provider, startOfDay, minutes)
    requires !Fits(s, opens[|opens| - 1], tables[|opens| - 1], provider, startOfDay, minutes)
    ensures FitsSomewhere(s, opens[..|opens| - 1], tables[..|opens| - 1], provider, startOfDay, minutes)
  {
    hide Fits;
    var n := |opens| - 1;
    var i :| 0 <= i < |opens| && Fits(s, opens[i], tables[i], provider, startOfDay, minutes);
    assert Fits(s, opens[..n][i], tables[..n][i], provider, startOfDay, minutes);
  }

  lemma AnswerOfLast(opens: seq<OpenInterval>, tables: seq<seq<Booking>>, provider: Id, startOfDay: int, minutes: int, at: int)
    requires |opens| == |tables| && opens != [] && minutes > 0
    ensures var n := |opens| - 1;
            var booked := FindBookingsByProviderAndDate(tables[n], provider, startOfDay);
            OverBy(Available(opens, tables, provider, startOfDay, minutes), at)
            == OverBy(Available(opens[..n], tables[..n], provider, startOfDay, minutes), at)
               + OverBy(SlotsOf(Subtract(RangeOf(opens[n], startOfDay), booked), minutes * MINUTE), at)
  {
    var n := |opens| - 1;
    OverByOfConcat(Available(opens[..n], tables[..n], provider, startOfDay, minutes),
                   SlotsFor(opens[n], tables[n], provider, startOfDay, minutes), at);
  }

  // If the open intervals are in order, so are the slots of the whole answer.
  lemma {:induction false} OfferedSlotsAreInOrder(opens: seq<OpenInterval>, tables: seq<seq<Booking>>, provider: Id,
                                                  startOfDay: int, minutes: int)
    requires |opens| == |tables| && minutes > 0
    requires forall i, j :: 0 <= i < j < |opens| ==> opens[i].endMinutes <= opens[j].startMinutes
    ensures Timetable(Available(opens, tables, provider, startOfDay, minutes), minutes * 60000)
  {
    hide Timetable, SlotsFor;
    if opens == [] {
      NoTimetable(minutes * MINUTE);
    } else {
      var n := |opens| - 1;
      var front := Available(opens[..n], tables[..n], provider, startOfDay, minutes);
      var last := SlotsFor(opens[n], tables[n], provider, startOfDay, minutes);
      OfferedSlotsAreInOrder(opens[..n], tables[..n], provider, startOfDay, minutes);
      OfferedSlotsAreInside(opens[..n], tables[..n], provider, startOfDay, minutes);
      SlotsForAreInside(opens[n], tables[n], provider, startOfDay, minutes);
      forall s, t | s in front && t in last ensures s.end <= t.start {
        var i :| 0 <= i < n && Inside(s, RangeOf(opens[..n][i], startOfDay));
        assert opens[i].endMinutes <= opens[n].startMinutes;
      }
      TimetableConcat(front, last, minutes * MINUTE);
    }
  }

  // The hour before midnight is one slot.
  lemma LastHourIsOneSlot(startOfDay: int)
    ensures var s := Interval(startOfDay + 1380 * MINUTE, startOfDay + DAY);
            SlotsOf([s], 60 * MINUTE) == [s] && RangeOf(OpenInterval(1380, 1440), startOfDay) == s
  {
    var s := Interval(startOfDay + 1380 * MINUTE, startOfDay + DAY);
    assert SlotsIn(s.end, s.end, 60 * MINUTE) == [];
    assert SlotsIn(s.start, s.end, 60 * MINUTE) == [s];
    assert SlotsOf([s][..0], 60 * MINUTE) == [];
  }

  lemma LastMillisecondIsNotFetched(provider: Id, startOfDay: int)
    ensures FindBookingsByProviderAndDate([LastMillisecondBooking(provider, startOfDay)], provider, startOfDay) == []
  {
    var rows := [LastMillisecondBooking(provider, startOfDay)];
    assert FindBookingsByProviderAndDate(rows[..0], provider, startOfDay) == [];
  }

  // An open interval up to midnight can offer a slot on top of a booking made for its last millisecond.
  lemma MidnightSlotCanOverlap(provider: Id, startOfDay: int)
    ensures var rows := [LastMillisecondBooking(provider, startOfDay)];
            var s := Interval(startOfDay + 1380 * MINUTE, startOfDay + DAY);
            && s in SlotsFor(OpenInterval(1380, 1440), rows, provider, startOfDay, 60)
            && Overlap(s, SlotTime(rows[0]))
  {
    hide SlotsOf, SlotsIn, RangeOf, FindBookingsByProviderAndDate, LastMillisecondBooking;
    var row := LastMillisecondBooking(provider, startOfDay);
    var s := Interval(startOfDay + 1380 * MINUTE, startOfDay + DAY);
    LastMillisecondIsNotFetched(provider, startOfDay);
    LastHourIsOneSlot(startOfDay);
    assert Subtract(s, []) == [s];
    assert In(startOfDay + END_OF_DAY, s) && In(startOfDay + END_OF_DAY, SlotTime(row));
  }
}
