/**
 Free slots of a provider on one day: the open intervals minus the existing bookings, cut greedily
 into slots of one length.  Times are integer milliseconds and every interval is half-open.
 */
module SlotEngine {
  import opened Common

  datatype Interval = Interval(start: int, end: int)

  predicate In(t: int, iv: Interval) {
    iv.start <= t < iv.end
  }

  ghost predicate Covered(t: int, ivs: seq<Interval>) {
    exists i :: 0 <= i < |ivs| && In(t, ivs[i])
  }

  // ------------------------------------------------------------------------------------------
  // Subtraction
  // ------------------------------------------------------------------------------------------

  // What one booking leaves of one interval.
  function Cut(iv: Interval, b: Interval): seq<Interval> {
    var ovStart := if b.start > iv.start then b.start else iv.start;
    var ovEnd := if b.end < iv.end then b.end else iv.end;
    if ovStart >= ovEnd then
      [iv]
    else if iv.start < ovStart && ovEnd < iv.end then
      [Interval(iv.start, ovStart), Interval(ovEnd, iv.end)]
    else if iv.start < ovStart then
      [Interval(iv.start, ovStart)]
    else if ovEnd < iv.end then
      [Interval(ovEnd, iv.end)]
    else
      []
  }

  function CutAll(ivs: seq<Interval>, b: Interval): seq<Interval> {
    if ivs == [] then [] else CutAll(ivs[..|ivs| - 1], b) + Cut(ivs[|ivs| - 1], b)
  }

  function Subtract(range: Interval, booked: seq<Interval>): seq<Interval> {
    if booked == [] then
      [range]
    else
      CutAll(Subtract(range, booked[..|booked| - 1]), booked[|booked| - 1])
  }

  lemma CutUpTo(ivs: seq<Interval>, j: nat, b: Interval)
    requires j <= |ivs|
    ensures CutAll(ivs[..j], b) == if j == 0 then [] else CutAll(ivs[..j - 1], b) + Cut(ivs[j - 1], b)
  {
    assert j > 0 ==> ivs[..j][..j - 1] == ivs[..j - 1];
  }

  lemma SubtractFrom(range: Interval, booked: seq<Interval>, i: nat)
    requires i <= |booked|
    ensures Subtract(range, booked[..i])
            == if i == 0 then [range] else CutAll(Subtract(range, booked[..i - 1]), booked[i - 1])
  {
    assert i > 0 ==> booked[..i][..i - 1] == booked[..i - 1];
  }

  method SubtractBookedFromRange(range: Interval, booked: seq<Interval>) returns (intervals: seq<Interval>)
    ensures intervals == Subtract(range, booked)
    ensures forall t :: Covered(t, intervals) <==> In(t, range) && !Covered(t, booked)
    ensures range.start < range.end ==> Canonical(intervals) && |intervals| <= |booked| + 1
  {
    hide Canonical, Covered, In, Subtract, CutAll;
    SubtractFrom(range, booked, 0);
    intervals := [range];
    for i := 0 to |booked|
      invariant intervals == Subtract(range, booked[..i])
    {
      SubtractFrom(range, booked, i + 1);
      CutUpTo(intervals, 0, booked[i]);
      var next: seq<Interval> := [];
      for j := 0 to |intervals|
        invariant next == CutAll(intervals[..j], booked[i])
      {
        CutUpTo(intervals, j + 1, booked[i]);
        var b, iv := booked[i], intervals[j];
        var ovStart := if b.start > iv.start then b.start else iv.start;
        var ovEnd := if b.end < iv.end then b.end else iv.end;
        if ovStart >= ovEnd {
          next := next + [iv];
        } else {
          var before := next;
          if iv.start < ovStart {
            next := next + [Interval(iv.start, ovStart)];
          }
          if ovEnd < iv.end {
            next := next + [Interval(ovEnd, iv.end)];
          }
          assert next == before + Cut(iv, b);
        }
      }
      assert intervals[..|intervals|] == intervals;
      intervals := next;
    }
    assert booked[..|booked|] == booked;
    SubtractionIsExact(range, booked);
    if range.start < range.end {
      SubtractionIsCanonical(range, booked);
    }
  }

  // Non-empty pieces in increasing order with a gap between any two of them.
  ghost predicate Canonical(ivs: seq<Interval>) {
    && (forall i :: 0 <= i < |ivs| ==> ivs[i].start < ivs[i].end)
    && (forall i, j :: 0 <= i < j < |ivs| ==> ivs[i].end < ivs[j].start)
  }

  lemma CoveredByConcat(t: int, a: seq<Interval>, b: seq<Interval>)
    ensures Covered(t, a + b) <==> Covered(t, a) || Covered(t, b)
  {
    forall i | 0 <= i < |a| ensures (a + b)[i] == a[i] {}
    forall i | 0 <= i < |b| ensures (a + b)[|a| + i] == b[i] {}
    if Covered(t, b) {
      var i :| 0 <= i < |b| && In(t, b[i]);
      assert In(t, (a + b)[|a| + i]);
    }
    if Covered(t, a) {
      var i :| 0 <= i < |a| && In(t, a[i]);
      assert In(t, (a + b)[i]);
    }
  }

  lemma CutIsExact(t: int, iv: Interval, b: Interval)
    ensures Covered(t, Cut(iv, b)) <==> In(t, iv) && !In(t, b)
  {
    var pieces := Cut(iv, b);
    if In(t, iv) && !In(t, b) {
      if pieces == [iv] {
        assert In(t, pieces[0]);
      } else if t < b.start {
        assert In(t, pieces[0]);
      } else {
        assert In(t, pieces[|pieces| - 1]);
      }
    }
  }

  lemma {:induction false} CutAllIsExact(t: int, ivs: seq<Interval>, b: Interval)
    ensures Covered(t, CutAll(ivs, b)) <==> Covered(t, ivs) && !In(t, b)
  {
    if ivs == [] {
    } else {
      var front, last := ivs[..|ivs| - 1], ivs[|ivs| - 1];
      CutAllIsExact(t, front, b);
      CutIsExact(t, last, b);
      CoveredByConcat(t, CutAll(front, b), Cut(last, b));
      CoveredByConcat(t, front, [last]);
      assert ivs == front + [last];
      assert In(t, [last][0]) <==> In(t, last);
    }
  }

  lemma {:induction false} InstantOfSubtraction(t: int, range: Interval, booked: seq<Interval>)
    ensures Covered(t, Subtract(range, booked)) <==> In(t, range) && !Covered(t, booked)
  {
    if booked == [] {
      assert Subtract(range, booked)[0] == range;
    } else {
      var front, last := booked[..|booked| - 1], booked[|booked| - 1];
      InstantOfSubtraction(t, range, front);
      CutAllIsExact(t, Subtract(range, front), last);
      CoveredByConcat(t, front, [last]);
      assert booked == front + [last];
      assert In(t, [last][0]) <==> In(t, last);
    }
  }

  // An instant is left over exactly when it is in the range and in no booking.
  lemma SubtractionIsExact(range: Interval, booked: seq<Interval>)
    ensures forall t :: Covered(t, Subtract(range, booked)) <==> In(t, range) && !Covered(t, booked)
  {
    forall t ensures Covered(t, Subtract(range, booked)) <==> In(t, range) && !Covered(t, booked) {
      InstantOfSubtraction(t, range, booked);
    }
  }

  lemma CanonicalConcat(a: seq<Interval>, b: seq<Interval>)
    requires Canonical(a) && Canonical(b)
    requires a != [] && b != [] ==> a[|a| - 1].end < b[0].start
    ensures Canonical(a + b)
  {
    forall i, j | 0 <= i < j < |a + b| ensures (a + b)[i].end < (a + b)[j].start {
      if i < |a| <= j {
        assert a[i].end <= a[|a| - 1].end;
        assert b[0].start <= b[j - |a|].start;
      }
    }
  }

  lemma CutShape(iv: Interval, b: Interval)
    requires iv.start < iv.end
    ensures Canonical(Cut(iv, b)) && |Cut(iv, b)| <= 2
    ensures forall i :: 0 <= i < |Cut(iv, b)| ==> iv.start <= Cut(iv, b)[i].start && Cut(iv, b)[i].end <= iv.end
    ensures |Cut(iv, b)| == 2 ==> iv.start < b.start
    ensures b.start >= iv.end ==> Cut(iv, b) == [iv]
  {
  }

  // How far the pieces cut from a list may reach.
  ghost predicate Within(pieces: seq<Interval>, ivs: seq<Interval>) {
    && (ivs == [] ==> pieces == [])
    && (ivs != [] && pieces != [] ==> pieces[|pieces| - 1].end <= ivs[|ivs| - 1].end)
  }

  lemma JoinCuts(front: seq<Interval>, last: Interval, cutFront: seq<Interval>, cutLast: seq<Interval>)
    requires Canonical(front + [last])
    requires Canonical(cutFront) && Within(cutFront, front)
    requires Canonical(cutLast)
    requires forall i :: 0 <= i < |cutLast| ==> last.start <= cutLast[i].start && cutLast[i].end <= last.end
    ensures Canonical(cutFront + cutLast) && Within(cutFront + cutLast, front + [last])
  {
    if front != [] {
      assert (front + [last])[|front| - 1].end < (front + [last])[|front|].start;
    }
    CanonicalConcat(cutFront, cutLast);
  }

  // A booking that starts after the last piece cuts nothing.
  lemma {:induction false} CutBeyond(ivs: seq<Interval>, b: Interval)
    requires forall i :: 0 <= i < |ivs| ==> ivs[i].end <= b.start
    ensures CutAll(ivs, b) == ivs
  {
    if ivs == [] {
    } else {
      CutBeyond(ivs[..|ivs| - 1], b);
      assert ivs == ivs[..|ivs| - 1] + [ivs[|ivs| - 1]];
    }
  }

  // Only the piece a booking lies strictly inside is split in two.
  lemma {:induction false} CutAllSize(ivs: seq<Interval>, b: Interval)
    requires Canonical(ivs)
    ensures |CutAll(ivs, b)| <= |ivs| + 1
  {
    if ivs == [] {
    } else {
      var front, last := ivs[..|ivs| - 1], ivs[|ivs| - 1];
      CutShape(last, b);
      if |Cut(last, b)| == 2 {
        CutBeyond(front, b);
      } else {
        CutAllSize(front, b);
      }
    }
  }

  lemma {:induction false} CutAllIsCanonical(ivs: seq<Interval>, b: Interval)
    requires Canonical(ivs)
    ensures Canonical(CutAll(ivs, b)) && Within(CutAll(ivs, b), ivs)
  {
    if ivs == [] {
    } else {
      var front, last := ivs[..|ivs| - 1], ivs[|ivs| - 1];
      assert ivs == front + [last];
      var cuts := CutAll(front, b) + Cut(last, b);
      assert Canonical(cuts) && Within(cuts, ivs) by {
        CutAllIsCanonical(front, b);
        CutShape(last, b);
        JoinCuts(front, last, CutAll(front, b), Cut(last, b));
      }
      assert CutAll(ivs, b) == cuts;
    }
  }

  // The pieces come out sorted, non-empty and strictly separated, one more than bookings at most.
  lemma {:induction false} SubtractionIsCanonical(range: Interval, booked: seq<Interval>)
    requires range.start < range.end
    ensures Canonical(Subtract(range, booked))
    ensures |Subtract(range, booked)| <= |booked| + 1
  {
    if booked == [] {
    } else {
      SubtractionIsCanonical(range, booked[..|booked| - 1]);
      CutAllIsCanonical(Subtract(range, booked[..|booked| - 1]), booked[|booked| - 1]);
      CutAllSize(Subtract(range, booked[..|booked| - 1]), booked[|booked| - 1]);
    }
  }

  // A set of instants has at most one canonical form.
  lemma {:induction false} CanonicalFormIsUnique(a: seq<Interval>, b: seq<Interval>)
    requires Canonical(a) && Canonical(b)
    requires forall t :: Covered(t, a) <==> Covered(t, b)
    ensures a == b
  {
    hide Canonical, Covered, In;
    if a == [] || b == [] {
      CoversItsStart(a);
      CoversItsStart(b);
    } else {
      FirstPieceStarts(a, b);
      FirstPieceStarts(b, a);
      FirstPieceEnds(a, b);
      FirstPieceEnds(b, a);
      TailIsCanonical(a);
      TailIsCanonical(b);
      forall t ensures Covered(t, a[1..]) <==> Covered(t, b[1..]) {
        TailCoverage(t, a);
        TailCoverage(t, b);
      }
      CanonicalFormIsUnique(a[1..], b[1..]);
      assert a == [a[0]] + a[1..];
      assert b == [b[0]] + b[1..];
    }
  }

  lemma CoversItsStart(a: seq<Interval>)
    requires Canonical(a)
    ensures if a == [] then forall t :: !Covered(t, a) else Covered(a[0].start, a)
  {
    assert a == [] || In(a[0].start, a[0]);
  }

  lemma TailIsCanonical(a: seq<Interval>)
    requires Canonical(a) && a != []
    ensures Canonical(a[1..])
  {
  }

  lemma FirstPieceStarts(a: seq<Interval>, b: seq<Interval>)
    requires Canonical(a) && Canonical(b) && a != [] && b != []
    requires forall t :: Covered(t, a) <==> Covered(t, b)
    ensures b[0].start <= a[0].start
  {
    assert In(a[0].start, a[0]);
    assert Covered(a[0].start, a);
    var i :| 0 <= i < |b| && In(a[0].start, b[i]);
    assert i == 0 || b[0].end < b[i].start;
  }

  lemma FirstPieceEnds(a: seq<Interval>, b: seq<Interval>)
    requires Canonical(a) && Canonical(b) && a != [] && b != []
    requires forall t :: Covered(t, a) <==> Covered(t, b)
    requires a[0].start == b[0].start
    ensures a[0].end <= b[0].end
  {
    var t := b[0].end;
    assert !Covered(t, b);
    assert In(t, a[0]) <==> t < a[0].end;
  }

  lemma TailCoverage(t: int, a: seq<Interval>)
    requires Canonical(a) && a != []
    ensures Covered(t, a[1..]) <==> Covered(t, a) && !In(t, a[0])
  {
    if Covered(t, a[1..]) {
      var i :| 0 <= i < |a[1..]| && In(t, a[1..][i]);
      assert In(t, a[i + 1]);
      assert a[0].end < a[i + 1].start;
    }
    if Covered(t, a) && !In(t, a[0]) {
      var i :| 0 <= i < |a| && In(t, a[i]);
      assert In(t, a[1..][i - 1]);
    }
  }

  // The query that fetches the bookings orders nothing, and nothing depends on its order: bookings
  // occupying the same instants leave the same list of pieces.
  lemma SubtractionDependsOnInstantsOnly(range: Interval, x: seq<Interval>, y: seq<Interval>)
    requires range.start < range.end
    requires forall t :: In(t, range) ==> (Covered(t, x) <==> Covered(t, y))
    ensures Subtract(range, x) == Subtract(range, y)
  {
    SubtractionIsExact(range, x);
    SubtractionIsExact(range, y);
    SubtractionIsCanonical(range, x);
    SubtractionIsCanonical(range, y);
    CanonicalFormIsUnique(Subtract(range, x), Subtract(range, y));
  }

  lemma SubtractionIgnoresOrder(range: Interval, x: seq<Interval>, y: seq<Interval>)
    requires range.start < range.end
    requires multiset(x) == multiset(y)
    ensures Subtract(range, x) == Subtract(range, y)
  {
    forall t ensures Covered(t, x) <==> Covered(t, y) {
      if Covered(t, x) {
        var i :| 0 <= i < |x| && In(t, x[i]);
        assert x[i] in multiset(y);
        var j :| 0 <= j < |y| && y[j] == x[i];
      }
      if Covered(t, y) {
        var i :| 0 <= i < |y| && In(t, y[i]);
        assert y[i] in multiset(x);
        var j :| 0 <= j < |x| && x[j] == y[i];
      }
    }
    SubtractionDependsOnInstantsOnly(range, x, y);
  }

  // ------------------------------------------------------------------------------------------
  // Cutting free time into slots
  // ------------------------------------------------------------------------------------------

  // The greedy slots of length d between two instants.
  function SlotsIn(start: int, end: int, d: int): seq<Interval>
    requires d > 0
    decreases end - start
  {
    if start + d <= end then [Interval(start, start + d)] + SlotsIn(start + d, end, d) else []
  }

  function SlotsOf(free: seq<Interval>, d: int): seq<Interval>
    requires d > 0
  {
    if free == [] then
      []
    else
      SlotsOf(free[..|free| - 1], d) + SlotsIn(free[|free| - 1].start, free[|free| - 1].end, d)
  }

  // Disjoint slots of one length, in increasing order.
  ghost predicate Timetable(slots: seq<Interval>, d: int) {
    && (forall i :: 0 <= i < |slots| ==> slots[i].end == slots[i].start + d)
    && (forall i, j :: 0 <= i < j < |slots| ==> slots[i].end <= slots[j].start)
  }

  ghost predicate InsideOf(slot: Interval, ivs: seq<Interval>) {
    exists i :: 0 <= i < |ivs| && ivs[i].start <= slot.start && slot.end <= ivs[i].end
  }

  lemma {:induction false} SlotsInFit(start: int, end: int, d: int)
    requires d > 0
    ensures Timetable(SlotsIn(start, end, d), d)
    ensures forall s :: s in SlotsIn(start, end, d) ==> start <= s.start && s.end <= end
    decreases end - start
  {
    if start + d > end {
    } else {
      var first, others := Interval(start, start + d), SlotsIn(start + d, end, d);
      SlotsInFit(start + d, end, d);
      assert SlotsIn(start, end, d) == [first] + others;
      assert forall j :: 0 <= j < |others| ==> others[j] in others;
    }
  }

  lemma TimetableConcat(a: seq<Interval>, b: seq<Interval>, d: int)
    requires Timetable(a, d) && Timetable(b, d) && forall s, t :: s in a && t in b ==> s.end <= t.start
    ensures Timetable(a + b, d)
  {
    forall i, j | 0 <= i < j < |a + b| ensures (a + b)[i].end <= (a + b)[j].start {
      if i < |a| <= j {
        assert a[i] in a && b[j - |a|] in b;
      }
    }
  }

  lemma {:induction false} SlotsOfFit(free: seq<Interval>, d: int)
    requires d > 0 && Canonical(free)
    ensures Timetable(SlotsOf(free, d), d)
    ensures forall s :: s in SlotsOf(free, d) ==> InsideOf(s, free)
  {
    hide Timetable, SlotsIn;
    if free == [] {
      assert Timetable([], d) by { NoTimetable(d); }
    } else {
      var front, last := free[..|free| - 1], free[|free| - 1];
      SlotsOfFit(front, d);
      SlotsInFit(last.start, last.end, d);
      forall s | s in SlotsOf(front, d) ensures InsideOf(s, free) && s.end < last.start {
        var i :| 0 <= i < |front| && front[i].start <= s.start && s.end <= front[i].end;
        assert free[i] == front[i];
      }
      forall s | s in SlotsIn(last.start, last.end, d) ensures InsideOf(s, free) {
        assert free[|free| - 1] == last;
      }
      TimetableConcat(SlotsOf(front, d), SlotsIn(last.start, last.end, d), d);
    }
  }

  lemma NoTimetable(d: int)
    ensures Timetable([], d)
  {
  }

  // Start times of disjoint slots of length d that lie in the range and meet no booking.
  ghost predicate Packing(family: set<int>, range: Interval, booked: seq<Interval>, d: int) {
    && (forall s :: s in family ==> range.start <= s && s + d <= range.end)
    && (forall s, t :: s in family && s <= t < s + d ==> !Covered(t, booked))
    && (forall s, u :: s in family && u in family && s < u ==> s + d <= u)
  }

  ghost predicate Spaced(family: set<int>, d: int) {
    forall s, u :: s in family && u in family && s < u ==> s + d <= u
  }

  // How many slots are over by then.
  function OverBy(slots: seq<Interval>, at: int): nat {
    if slots == [] then 0 else (if slots[0].end <= at then 1 else 0) + OverBy(slots[1..], at)
  }

  lemma {:induction false} OverByOfConcat(a: seq<Interval>, b: seq<Interval>, at: int)
    ensures OverBy(a + b, at) == OverBy(a, at) + OverBy(b, at)
  {
    if a == [] {
      assert a + b == b;
    } else {
      assert (a + b)[1..] == a[1..] + b;
      OverByOfConcat(a[1..], b, at);
    }
  }

  lemma {:induction false} NoMoreThanAll(slots: seq<Interval>, at: int)
    ensures OverBy(slots, at) <= |slots|
  {
    if slots == [] {
    } else {
      NoMoreThanAll(slots[1..], at);
    }
  }

  lemma SlotsInStart(start: int, end: int, d: int, at: int)
    requires d > 0 && start + d <= end
    ensures OverBy(SlotsIn(start, end, d), at) == (if start + d <= at then 1 else 0) + OverBy(SlotsIn(start + d, end, d), at)
  {
    assert SlotsIn(start, end, d)[1..] == SlotsIn(start + d, end, d);
  }

  // Starting later never gets more slots over by any time.
  lemma {:induction false} LaterStartFitsFewer(start: int, later: int, end: int, d: int, at: int)
    requires d > 0 && start <= later
    ensures OverBy(SlotsIn(later, end, d), at) <= OverBy(SlotsIn(start, end, d), at)
    decreases end - start
  {
    if end < later + d {
    } else {
      SlotsInStart(start, end, d, at);
      SlotsInStart(later, end, d, at);
      LaterStartFitsFewer(start + d, later + d, end, d, at);
    }
  }

  // Within one free interval the greedy slots stay ahead: by no time are more slots over of any family.
  lemma {:induction false} GreedyStaysAheadInOnePiece(family: set<int>, start: int, end: int, d: int, at: int)
    requires d > 0 && Spaced(family, d)
    requires forall s :: s in family ==> start <= s && s + d <= end && s + d <= at
    ensures |family| <= OverBy(SlotsIn(start, end, d), at)
    decreases family
  {
    if family == {} {
    } else {
      var first := LeastOf(family);
      var rest := family - {first};
      GreedyStaysAheadInOnePiece(rest, first + d, end, d, at);
      SlotsInStart(first, end, d, at);
      LaterStartFitsFewer(start, first, end, d, at);
    }
  }

  lemma SplitAtLastPiece(rest: set<int>, front: seq<Interval>, last: Interval, d: int)
    requires forall s :: s in rest ==> InsideOf(Interval(s, s + d), front + [last])
    requires forall s :: s in rest ==> !(last.start <= s && s + d <= last.end)
    ensures forall s :: s in rest ==> InsideOf(Interval(s, s + d), front)
  {
    forall s | s in rest ensures InsideOf(Interval(s, s + d), front) {
      var free := front + [last];
      assert InsideOf(Interval(s, s + d), free);
      var i :| 0 <= i < |free| && free[i].start <= s && s + d <= free[i].end;
      assert front[i] == free[i];
    }
  }

  lemma SlotsOfLast(front: seq<Interval>, last: Interval, d: int, at: int)
    requires d > 0
    ensures OverBy(SlotsOf(front + [last], d), at)
            == OverBy(SlotsOf(front, d), at) + OverBy(SlotsIn(last.start, last.end, d), at)
  {
    assert (front + [last])[..|front|] == front;
    OverByOfConcat(SlotsOf(front, d), SlotsIn(last.start, last.end, d), at);
  }

  lemma PartsAddUp(family: set<int>, part: set<int>)
    requires part <= family
    ensures |family| == |family - part| + |part|
  {
    assert family == (family - part) + part;
  }

  lemma NothingInNoPiece(family: set<int>, d: int)
    requires forall s :: s in family ==> InsideOf(Interval(s, s + d), [])
    ensures family == {}
  {
    forall s ensures s !in family {
      assert !InsideOf(Interval(s, s + d), []);
    }
  }

  lemma {:induction false} GreedyStaysAheadInPieces(family: set<int>, free: seq<Interval>, d: int, at: int)
    requires d > 0 && Spaced(family, d)
    requires forall s :: s in family ==> InsideOf(Interval(s, s + d), free) && s + d <= at
    ensures |family| <= OverBy(SlotsOf(free, d), at)
  {
    hide Spaced, SlotsOf, SlotsIn, InsideOf, OverBy;
    if free == [] {
      NothingInNoPiece(family, d);
    } else {
      var front, last := free[..|free| - 1], free[|free| - 1];
      var inLast := set s | s in family && last.start <= s && s + d <= last.end;
      var rest := family - inLast;
      assert free == front + [last];
      SubsetsAreSpaced(family, rest, d);
      SubsetsAreSpaced(family, inLast, d);
      SplitAtLastPiece(rest, front, last, d);
      GreedyStaysAheadInPieces(rest, front, d, at);
      GreedyStaysAheadInOnePiece(inLast, last.start, last.end, d, at);
      PartsAddUp(family, inLast);
      SlotsOfLast(front, last, d, at);
    }
  }

  lemma SubsetsAreSpaced(family: set<int>, part: set<int>, d: int)
    requires Spaced(family, d) && part <= family
    ensures Spaced(part, d)
  {
  }

  // A stretch of free time lies within one piece of the canonical list.
  lemma FreeStretchIsInOnePiece(free: seq<Interval>, s: int, d: int)
    requires d > 0 && Canonical(free)
    requires forall t :: s <= t < s + d ==> Covered(t, free)
    ensures InsideOf(Interval(s, s + d), free)
  {
    assert Covered(s, free);
    var i :| 0 <= i < |free| && In(s, free[i]);
    var t := free[i].end;
    assert !Covered(t, free) by {
      forall j | 0 <= j < |free| ensures !In(t, free[j]) {
        assert i < j ==> free[i].end < free[j].start;
        assert j < i ==> free[j].end < free[i].start;
      }
    }
    assert s + d <= free[i].end;
  }

  // By no time are more slots over of any way of placing disjoint slots of that length into the free time
  // of one open interval than of the engine's slots: they come as early as they can.
  lemma SlotsComeEarliest(family: set<int>, range: Interval, booked: seq<Interval>, d: int, at: int)
    requires d > 0 && Packing(family, range, booked, d)
    requires forall s :: s in family ==> s + d <= at
    ensures |family| <= OverBy(SlotsOf(Subtract(range, booked), d), at)
  {
    var free := Subtract(range, booked);
    if family != {} {
      var earliest := LeastOf(family);
      assert range.start < range.end;
      SubtractionIsExact(range, booked);
      SubtractionIsCanonical(range, booked);
      forall s | s in family ensures InsideOf(Interval(s, s + d), free) {
        FreeStretchIsInOnePiece(free, s, d);
      }
      GreedyStaysAheadInPieces(family, free, d, at);
    }
  }

  // So no other way of placing them yields more.
  lemma PackingIsOptimal(family: set<int>, range: Interval, booked: seq<Interval>, d: int)
    requires d > 0 && Packing(family, range, booked, d)
    ensures |family| <= |SlotsOf(Subtract(range, booked), d)|
  {
    SlotsComeEarliest(family, range, booked, d, range.end);
    NoMoreThanAll(SlotsOf(Subtract(range, booked), d), range.end);
  }

  lemma SlotsFit(range: Interval, booked: seq<Interval>, d: int)
    requires d > 0
    ensures var slots := SlotsOf(Subtract(range, booked), d);
            && Timetable(slots, d)
            && forall s :: s in slots ==> InsideOf(s, Subtract(range, booked))
  {
    if range.start < range.end {
      SubtractionIsCanonical(range, booked);
      SlotsOfFit(Subtract(range, booked), d);
    } else {
      SubtractEmptyRange(range, booked);
      assert SlotsOf([range][..0], d) == [];
    }
  }

  lemma {:induction false} SubtractEmptyRange(range: Interval, booked: seq<Interval>)
    requires range.start >= range.end
    ensures Subtract(range, booked) == [range]
  {
    if booked == [] {
    } else {
      SubtractEmptyRange(range, booked[..|booked| - 1]);
      assert CutAll([range][..0], booked[|booked| - 1]) == [];
    }
  }

  // Every slot has the asked length, no two overlap, and each lies in the range and off all bookings.
  lemma SlotsAreValid(range: Interval, booked: seq<Interval>, d: int)
    requires d > 0
    ensures Timetable(SlotsOf(Subtract(range, booked), d), d)
    ensures forall s :: s in SlotsOf(Subtract(range, booked), d) ==> FreeSlot(s, range, booked)
  {
    SlotsFit(range, booked, d);
    forall s | s in SlotsOf(Subtract(range, booked), d) ensures FreeSlot(s, range, booked) {
      SlotInsidePieceIsFree(s, range, booked);
    }
  }

  ghost predicate FreeSlot(s: Interval, range: Interval, booked: seq<Interval>) {
    && range.start <= s.start && s.end <= range.end
    && forall t :: In(t, s) ==> !Covered(t, booked)
  }

  lemma SlotInsidePieceIsFree(s: Interval, range: Interval, booked: seq<Interval>)
    requires s.start < s.end && InsideOf(s, Subtract(range, booked))
    ensures FreeSlot(s, range, booked)
  {
    var free := Subtract(range, booked);
    var i :| 0 <= i < |free| && free[i].start <= s.start && s.end <= free[i].end;
    forall t | In(t, s) ensures In(t, range) && !Covered(t, booked) {
      assert In(t, free[i]) && Covered(t, free);
      InstantOfSubtraction(t, range, booked);
    }
    assert In(s.start, range) && In(s.end - 1, range);
  }
}
