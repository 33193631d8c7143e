/**
 When a booking can be refunded twice, or refunded and served: the gateway is called before the guarded
 update, so what matters is which cancellations stand between the two.
 */
module BookingRefundRaces {
  import opened Common
  import opened BookingTypes
  import opened BookingStore
  import opened BookingProtocol
  import opened BookingInvariant
  import opened BookingSerial
  import opened BookingServing
  import opened BookingScenarios

  // A cancellation that is about to call the gateway.
  predicate Calls(pc: Pc, id: Id) {
    pc.CancelRefunding? && pc.id == id
  }

  // A cancellation whose refund is made and not recorded yet.
  predicate Records(pc: Pc, id: Id) {
    pc.CancelWriting? && pc.id == id && pc.refund.Some?
  }

  predicate IsRefunding(pc: Pc, id: Id) {
    Calls(pc, id) || Records(pc, id)
  }

  ghost predicate AnyCalls(s: State, id: Id) {
    exists r :: r in s.requests && Calls(s.requests[r], id)
  }

  ghost predicate AnyRefunding(s: State, id: Id) {
    exists r :: r in s.requests && IsRefunding(s.requests[r], id)
  }

  ghost predicate AtMostOneRefunding(s: State, id: Id) {
    forall p, q ::
      (p in s.requests && q in s.requests && IsRefunding(s.requests[p], id) && IsRefunding(s.requests[q], id)) ==> p == q
  }

  // The gateway makes the refund, whether or not it gets to say so.
  predicate Pays(pc: Pc, c: Choice, id: Id) {
    Calls(pc, id) && c.gatewayOk && c.fault != NotWritten
  }

  // A fault that keeps a made refund from being recorded although the booking could still be cancelled:
  // the call is taken for refused, or the update is lost.
  predicate LosesRecord(s: State, a: Action, id: Id) {
    a.Advance? && a.request in s.requests && Open(s.db, id) &&
    ((a.choice.fault == NotWritten && Records(s.requests[a.request], id)) ||
     (a.choice.fault == NotReported && Pays(s.requests[a.request], a.choice, id)))
  }

  // ------------------------------------------------------------------------------------------
  // Steps
  // ------------------------------------------------------------------------------------------

  lemma RefundsOnlyGrow(db: Db, pc: Pc, c: Choice, id: Id)
    requires !pc.Done?
    ensures Pays(pc, c, id) ==>
              && RefundsOf(Perform(db, PlanOf(db, pc, c).write).refunds, id)
                 == RefundsOf(db.refunds, id) + [Refund(id, pc.payment, pc.amount, c.newId)]
              && Next(db, pc, c) == if c.fault == NoFault then
                                      CancelWriting(id, pc.who, Some(pc.amount), Some(c.newId))
                                    else
                                      Done(BadRequest)
    ensures !Pays(pc, c, id) ==>
              RefundsOf(Perform(db, PlanOf(db, pc, c).write).refunds, id) == RefundsOf(db.refunds, id)
  {
    hide RefundsOf;
    if pc.CancelStart? || pc.CancelRefunding? || pc.CancelWriting? {
      CancelRefundsOnlyGrow(db, pc, c, id);
    } else {
      OtherRequestsDoNotRefund(db, pc, c);
    }
  }

  lemma CancelRefundsOnlyGrow(db: Db, pc: Pc, c: Choice, id: Id)
    requires pc.CancelStart? || pc.CancelRefunding? || pc.CancelWriting?
    ensures Pays(pc, c, id) ==>
              && RefundsOf(Perform(db, PlanOf(db, pc, c).write).refunds, id)
                 == RefundsOf(db.refunds, id) + [Refund(id, pc.payment, pc.amount, c.newId)]
              && Next(db, pc, c) == if c.fault == NoFault then
                                      CancelWriting(id, pc.who, Some(pc.amount), Some(c.newId))
                                    else
                                      Done(BadRequest)
    ensures !Pays(pc, c, id) ==>
              RefundsOf(Perform(db, PlanOf(db, pc, c).write).refunds, id) == RefundsOf(db.refunds, id)
  {
    hide RefundsOf, Intended;
    CancelPlan(db, pc, c);
    if pc.CancelRefunding? {
      AnotherRefund(db.refunds, Refund(pc.id, pc.payment, pc.amount, c.newId), id);
    }
  }

  lemma OtherRequestsDoNotRefund(db: Db, pc: Pc, c: Choice)
    requires !pc.CancelStart? && !pc.CancelRefunding? && !pc.CancelWriting? && !pc.Done?
    ensures Perform(db, PlanOf(db, pc, c).write).refunds == db.refunds
    ensures !Next(db, pc, c).CancelRefunding? && !Next(db, pc, c).CancelWriting?
  {
  }

  // A request starts refunding only where the booking is still open.
  lemma WhoStartsRefunding(db: Db, pc: Pc, c: Choice, id: Id)
    requires !pc.Done?
    ensures Calls(Next(db, pc, c), id) ==> pc.CancelStart? && pc.id == id && Open(db, id)
    ensures Records(Next(db, pc, c), id) ==> Pays(pc, c, id)
  {
    if pc.CancelStart? || pc.CancelRefunding? || pc.CancelWriting? {
      hide Intended;
      CancelPlan(db, pc, c);
    } else {
      OtherRequestsDoNotRefund(db, pc, c);
    }
  }

  // A booking that is no longer open stays so, and recording a refund closes it unless the record is lost.
  lemma StaysClosed(db: Db, later: Db, id: Id)
    requires Grown(db, later) && id in db.bookings && !Open(db, id)
    ensures id in later.bookings && !Open(later, id)
  {
    assert Progressed(db.bookings[id], later.bookings[id]);
  }

  lemma RecordingCloses(db: Db, pc: Pc, c: Choice, id: Id)
    requires Records(pc, id) && (c.fault == NotWritten ==> !Open(db, id))
    ensures !Open(Perform(db, PlanOf(db, pc, c).write), id)
    ensures Next(db, pc, c).Done?
  {
    hide Intended;
    CancelPlan(db, pc, c);
  }

  // ------------------------------------------------------------------------------------------
  // Every made refund is on its way into the record
  // ------------------------------------------------------------------------------------------

  // An open booking that was refunded has a cancellation about to record it.
  ghost predicate RecordPending(s: State, id: Id) {
    Open(s.db, id) && RefundsOf(s.db.refunds, id) != [] ==>
      exists r :: r in s.requests && Records(s.requests[r], id)
  }

  // And a cancellation about to record a refund has made it.
  ghost predicate RecordsAreMade(s: State, id: Id) {
    forall r :: r in s.requests && Records(s.requests[r], id) ==> RefundsOf(s.db.refunds, id) != []
  }

  ghost predicate RecordsExist(s: State, id: Id) {
    RecordsAreMade(s, id) && (RefundsOf(s.db.refunds, id) != [] ==> id in s.db.bookings)
  }

  lemma AdvanceKeepsMade(s: State, r: Id, c: Choice, id: Id)
    requires Inv(s) && Enabled(s, Advance(r, c)) && RecordsExist(s, id)
    ensures RecordsExist(Step(s, Advance(r, c)), id)
  {
    hide DbOk, PlanOf, PcOk, Perform, Records, Calls;
    StepIsMove(s, r, c);
    var pc := s.requests[r];
    PlanIsSound(s.db, pc, c);
    DbGrows(s.db, PlanOf(s.db, pc, c).write);
    RefundsOnlyGrow(s.db, pc, c, id);
    WhoStartsRefunding(s.db, pc, c, id);
    CallerKnowsBooking(s.db, pc, id);
  }

  lemma CallerKnowsBooking(db: Db, pc: Pc, id: Id)
    requires PcOk(db, pc)
    ensures Calls(pc, id) ==> id in db.bookings
  {
  }

  lemma StepKeepsMade(s: State, a: Action, id: Id)
    requires Inv(s) && Enabled(s, a) && RecordsExist(s, id)
    ensures RecordsExist(Step(s, a), id)
  {
    match a
    case Start(r, entry) =>
    case Tick(elapsed) => TickIs(s, elapsed);
    case Advance(r, c) => AdvanceKeepsMade(s, r, c, id);
  }

  lemma {:induction false} RunKeepsMade(acts: seq<Action>, id: Id)
    requires IsRun(Init, acts)
    ensures RecordsExist(After(Init, acts), id)
  {
    if acts == [] {
    } else {
      var front := acts[..|acts| - 1];
      RunKeepsMade(front, id);
      InitOk();
      RunKeepsInv(Init, front);
      StepKeepsMade(After(Init, front), acts[|acts| - 1], id);
    }
  }

  lemma AdvanceKeepsPending(s: State, r: Id, c: Choice, id: Id)
    requires Inv(s) && Enabled(s, Advance(r, c)) && !LosesRecord(s, Advance(r, c), id) && RecordsExist(s, id)
    requires RecordPending(s, id)
    ensures RecordPending(Step(s, Advance(r, c)), id)
  {
    hide DbOk, PlanOf, PcOk, Perform, Open;
    StepIsMove(s, r, c);
    var pc := s.requests[r];
    var t := Step(s, Advance(r, c));
    PlanIsSound(s.db, pc, c);
    DbGrows(s.db, PlanOf(s.db, pc, c).write);
    RefundsOnlyGrow(s.db, pc, c, id);
    if Open(t.db, id) && RefundsOf(t.db.refunds, id) != [] {
      if Pays(pc, c, id) {
        if c.fault == NotReported {
          CallerKnowsBooking(s.db, pc, id);
          StaysClosed(s.db, t.db, id);
        }
        assert Records(t.requests[r], id);
      } else {
        assert RefundsOf(s.db.refunds, id) != [];
        if !Open(s.db, id) {
          StaysClosed(s.db, t.db, id);
        }
        var q :| q in s.requests && Records(s.requests[q], id);
        if q == r {
          RecordingCloses(s.db, pc, c, id);
        }
        assert Records(t.requests[q], id);
      }
    }
  }

  ghost predicate NoRecordLost(acts: seq<Action>, id: Id)
    requires IsRun(Init, acts)
  {
    acts == [] ||
    (NoRecordLost(acts[..|acts| - 1], id) && !LosesRecord(After(Init, acts[..|acts| - 1]), acts[|acts| - 1], id))
  }

  lemma StepKeepsPending(s: State, a: Action, id: Id)
    requires Inv(s) && Enabled(s, a) && !LosesRecord(s, a, id) && RecordsExist(s, id) && RecordPending(s, id)
    ensures RecordPending(Step(s, a), id)
  {
    match a
    case Start(r, entry) =>
      var t := s.(requests := s.requests[r := entry]);
      assert forall q :: q in s.requests ==> q in t.requests && t.requests[q] == s.requests[q];
    case Tick(elapsed) => TickIs(s, elapsed);
    case Advance(r, c) => AdvanceKeepsPending(s, r, c, id);
  }

  lemma {:induction false} RunKeepsPending(acts: seq<Action>, id: Id)
    requires IsRun(Init, acts) && NoRecordLost(acts, id)
    ensures RecordPending(After(Init, acts), id)
  {
    if acts == [] {
    } else {
      var front := acts[..|acts| - 1];
      RunKeepsPending(front, id);
      RunKeepsMade(front, id);
      InitOk();
      RunKeepsInv(Init, front);
      StepKeepsPending(After(Init, front), acts[|acts| - 1], id);
    }
  }

  // ------------------------------------------------------------------------------------------
  // One refund at a time
  // ------------------------------------------------------------------------------------------

  // At every point of the run at most one cancellation stands between its check and its record, and no
  // record is lost.
  ghost predicate OneAtATime(acts: seq<Action>, id: Id)
    requires IsRun(Init, acts)
  {
    AtMostOneRefunding(After(Init, acts), id) &&
    (acts == [] ||
     (OneAtATime(acts[..|acts| - 1], id) && !LosesRecord(After(Init, acts[..|acts| - 1]), acts[|acts| - 1], id)))
  }

  ghost predicate RefundedOnce(s: State, id: Id) {
    |RefundsOf(s.db.refunds, id)| <= 1 && (AnyCalls(s, id) ==> RefundsOf(s.db.refunds, id) == [])
  }

  // A new caller finds no refund made: its record would be pending, next to the caller.
  lemma NewCallerIsFirst(s: State, t: State, r: Id, id: Id)
    requires r in s.requests && r in t.requests && !IsRefunding(s.requests[r], id) && Calls(t.requests[r], id)
    requires forall q :: q in s.requests && q != r ==> q in t.requests && t.requests[q] == s.requests[q]
    requires Open(s.db, id) && RecordPending(s, id) && AtMostOneRefunding(t, id)
    ensures RefundsOf(s.db.refunds, id) == []
  {
    if RefundsOf(s.db.refunds, id) != [] {
      var q :| q in s.requests && Records(s.requests[q], id);
      assert q != r && IsRefunding(t.requests[q], id) && IsRefunding(t.requests[r], id);
    }
  }

  lemma AdvanceKeepsOnce(s: State, r: Id, c: Choice, id: Id)
    requires Inv(s) && Enabled(s, Advance(r, c)) && RefundedOnce(s, id) && RecordPending(s, id)
    requires AtMostOneRefunding(s, id) && AtMostOneRefunding(Step(s, Advance(r, c)), id)
    ensures RefundedOnce(Step(s, Advance(r, c)), id)
  {
    hide DbOk, PlanOf, PcOk, Perform, Open, RecordPending;
    StepIsMove(s, r, c);
    var pc := s.requests[r];
    var t := Step(s, Advance(r, c));
    RefundsOnlyGrow(s.db, pc, c, id);
    if Pays(pc, c, id) {
      assert forall q :: q in t.requests && q != r ==> !Calls(s.requests[q], id);
    } else if AnyCalls(t, id) {
      var q :| q in t.requests && Calls(t.requests[q], id);
      if q == r && !Calls(pc, id) {
        WhoStartsRefunding(s.db, pc, c, id);
        NewCallerIsFirst(s, t, r, id);
      }
    }
  }

  lemma StepKeepsOnce(s: State, a: Action, id: Id)
    requires Inv(s) && Enabled(s, a) && RefundedOnce(s, id) && RecordPending(s, id)
    requires AtMostOneRefunding(s, id) && AtMostOneRefunding(Step(s, a), id)
    ensures RefundedOnce(Step(s, a), id)
  {
    match a
    case Start(r, entry) =>
      var t := s.(requests := s.requests[r := entry]);
      assert forall q :: q in t.requests && Calls(t.requests[q], id) ==> q in s.requests && Calls(s.requests[q], id);
    case Tick(elapsed) => TickIs(s, elapsed);
    case Advance(r, c) => AdvanceKeepsOnce(s, r, c, id);
  }

  lemma {:induction false} OneAtATimeLosesNothing(acts: seq<Action>, id: Id)
    requires IsRun(Init, acts) && OneAtATime(acts, id)
    ensures NoRecordLost(acts, id)
  {
    if acts == [] {
    } else {
      OneAtATimeLosesNothing(acts[..|acts| - 1], id);
    }
  }

  lemma {:induction false} RunKeepsOnce(acts: seq<Action>, id: Id)
    requires IsRun(Init, acts) && OneAtATime(acts, id)
    ensures RefundedOnce(After(Init, acts), id)
  {
    if acts == [] {
    } else {
      var front := acts[..|acts| - 1];
      RunKeepsOnce(front, id);
      OneAtATimeLosesNothing(front, id);
      RunKeepsPending(front, id);
      InitOk();
      RunKeepsInv(Init, front);
      StepKeepsOnce(After(Init, front), acts[|acts| - 1], id);
    }
  }

  // In every interleaving in which at most one cancellation of the booking at a time stands between its
  // check and its record, and no record is lost, the gateway refunds the booking at most once.
  lemma RefundedAtMostOnce(acts: seq<Action>, id: Id)
    requires IsRun(Init, acts) && OneAtATime(acts, id)
    ensures |RefundsOf(After(Init, acts).db.refunds, id)| <= 1
  {
    RunKeepsOnce(acts, id);
  }

  // ------------------------------------------------------------------------------------------
  // Otherwise it can be refunded twice
  // ------------------------------------------------------------------------------------------

  lemma CallerRefunds(s: State, r: Id, id: Id) returns (acts: seq<Action>)
    requires r in s.requests && Calls(s.requests[r], id)
    ensures IsRun(s, acts)
    ensures |RefundsOf(After(s, acts).db.refunds, id)| == |RefundsOf(s.db.refunds, id)| + 1
    ensures forall q :: q in s.requests && q != r ==>
                          q in After(s, acts).requests && After(s, acts).requests[q] == s.requests[q]
  {
    hide PlanOf, RefundsOf;
    var c := Quiet(s.db);
    StepIsMove(s, r, c);
    RefundsOnlyGrow(s.db, s.requests[r], c, id);
    RunOfOne(s, Advance(r, c));
    acts := [Advance(r, c)];
  }

  ghost predicate CanRefundTwice(s: State, id: Id) {
    exists acts :: RefundsTwiceBy(s, acts, id)
  }

  ghost predicate RefundsTwiceBy(s: State, acts: seq<Action>, id: Id) {
    IsRun(s, acts) && |RefundsOf(After(s, acts).db.refunds, id)| >= 2
  }

  // A caller next to another cancellation that refunds the booking.
  lemma OverlapCanRefundTwice(s: State, p: Id, q: Id, id: Id)
    requires p in s.requests && q in s.requests && p != q
    requires Calls(s.requests[p], id) && IsRefunding(s.requests[q], id) && RecordsExist(s, id)
    ensures CanRefundTwice(s, id)
  {
    if Calls(s.requests[q], id) {
      var first := CallerRefunds(s, q, id);
      var second := CallerRefunds(After(s, first), p, id);
      RunsConcat(s, first, second);
      assert RefundsTwiceBy(s, first + second, id);
    } else {
      var acts := CallerRefunds(s, p, id);
      assert RefundsTwiceBy(s, acts, id);
    }
  }

  lemma RefundedMeansPaid(db: Db, id: Id)
    requires DbOk(db) && RefundsOf(db.refunds, id) != []
    ensures id in db.bookings && db.bookings[id].payment.Some?
    ensures Open(db, id) ==> db.bookings[id].status == Confirmed
  {
    RefundsAreOfTheirBooking(db.refunds, id);
    var r := RefundsOf(db.refunds, id)[0];
    assert r in RefundsOf(db.refunds, id);
    assert RefundOk(db, r);
  }

  // An open booking that has been refunded can be cancelled, and refunded, again.
  lemma OpenRefundedCanRefundTwice(s: State, id: Id)
    requires Inv(s) && Open(s.db, id) && RefundsOf(s.db.refunds, id) != []
    ensures CanRefundTwice(s, id)
  {
    RefundedMeansPaid(s.db, id);
    var b := s.db.bookings[id];
    var r := UnusedId(s.requests.Keys);
    var c := Quiet(s.db);
    var entry := CancelStart(id, ByProvider, b.provider);
    CancelStarts(s.db, entry, c);
    ServingIsARun(s, r, entry, [c]);
    var first := Serving(r, entry, [c]);
    var t := After(s, first);
    assert t.db == s.db && Calls(t.requests[r], id);
    var second := CallerRefunds(t, r, id);
    RunsConcat(s, first, second);
    assert RefundsTwiceBy(s, first + second, id);
  }

  lemma LossLeavesRefunded(s: State, a: Action, id: Id)
    requires Enabled(s, a) && LosesRecord(s, a, id) && RecordsExist(s, id)
    ensures Open(Step(s, a).db, id) && RefundsOf(Step(s, a).db.refunds, id) != []
  {
    hide RefundsOf, Intended, PlanOf;
    var pc := s.requests[a.request];
    StepIsMove(s, a.request, a.choice);
    RefundsOnlyGrow(s.db, pc, a.choice, id);
    CancelPlan(s.db, pc, a.choice);
    assert Step(s, a).db.bookings == s.db.bookings;
  }

  lemma LostRecordCanRefundTwice(acts: seq<Action>, a: Action, id: Id)
    requires IsRun(Init, acts) && Enabled(After(Init, acts), a) && LosesRecord(After(Init, acts), a, id)
    ensures CanRefundTwice(Step(After(Init, acts), a), id)
  {
    hide CanRefundTwice, LosesRecord, Open, RefundsOf, Step, Inv, RecordsExist, IsRun;
    var s := After(Init, acts);
    InitOk();
    RunKeepsInv(Init, acts);
    RunKeepsMade(acts, id);
    StepKeepsInv(s, a);
    LossLeavesRefunded(s, a, id);
    OpenRefundedCanRefundTwice(Step(s, a), id);
  }

  // The step that first puts two cancellations next to each other brings a caller.
  lemma OverlapBringsCaller(s: State, a: Action, id: Id) returns (p: Id, q: Id)
    requires Enabled(s, a) && AtMostOneRefunding(s, id) && !AtMostOneRefunding(Step(s, a), id)
    ensures var t := Step(s, a);
            && p in t.requests && q in t.requests && p != q
            && Calls(t.requests[p], id) && IsRefunding(t.requests[q], id)
  {
    var t := Step(s, a);
    p, q :| p in t.requests && q in t.requests && p != q && IsRefunding(t.requests[p], id) && IsRefunding(t.requests[q], id);
    if a.Advance? {
      StepIsMove(s, a.request, a.choice);
      WhoStartsRefunding(s.db, s.requests[a.request], a.choice, id);
      assert p == a.request || q == a.request;
      if q == a.request {
        p, q := q, p;
      }
      assert s.requests[q] == t.requests[q];
      assert !IsRefunding(s.requests[p], id);
    } else {
      OnlyAdvancesOverlap(s, a, id);
    }
  }

  lemma OnlyAdvancesOverlap(s: State, a: Action, id: Id)
    requires Enabled(s, a) && !a.Advance?
    ensures AtMostOneRefunding(s, id) ==> AtMostOneRefunding(Step(s, a), id)
  {
    match a
    case Start(r, entry) =>
    case Tick(elapsed) => TickIs(s, elapsed);
  }

  // Where a run first departs from that, it can go on to refund the booking twice.
  lemma OverlapOrLossCanRefundTwice(acts: seq<Action>, id: Id)
    requires acts != [] && IsRun(Init, acts)
    requires OneAtATime(acts[..|acts| - 1], id) && !OneAtATime(acts, id)
    ensures CanRefundTwice(After(Init, acts), id)
  {
    hide CanRefundTwice, RefundsOf;
    var front, a := acts[..|acts| - 1], acts[|acts| - 1];
    var s := After(Init, front);
    if LosesRecord(s, a, id) {
      LostRecordCanRefundTwice(front, a, id);
    } else {
      assert AtMostOneRefunding(s, id) && !AtMostOneRefunding(After(Init, acts), id);
      var p, q := OverlapBringsCaller(s, a, id);
      RunKeepsMade(acts, id);
      OverlapCanRefundTwice(After(Init, acts), p, q, id);
    }
  }

  // Serial runs are of this kind, so they refund at most once.
  lemma {:induction false} SerialIsOneAtATime(acts: seq<Action>, id: Id)
    requires IsRun(Init, acts) && IsSerial(Init, acts)
    ensures OneAtATime(acts, id)
  {
    var cur := SerialRunKeepsInv(acts);
    if acts == [] {
    } else {
      SerialIsOneAtATime(acts[..|acts| - 1], id);
    }
  }

  // ------------------------------------------------------------------------------------------
  // Served and refunded
  // ------------------------------------------------------------------------------------------

  ghost predicate NeverRefunded(s: State, id: Id) {
    forall more :: IsRun(s, more) ==> RefundsOf(After(s, more).db.refunds, id) == []
  }

  ghost predicate ClosedUnrefunded(s: State, id: Id) {
    id in s.db.bookings && !Open(s.db, id) && RefundsOf(s.db.refunds, id) == [] && !AnyCalls(s, id)
  }

  lemma AdvanceKeepsUnrefunded(s: State, r: Id, c: Choice, id: Id)
    requires Inv(s) && Enabled(s, Advance(r, c)) && ClosedUnrefunded(s, id)
    ensures ClosedUnrefunded(Step(s, Advance(r, c)), id)
  {
    hide DbOk, PlanOf, PcOk, Perform, Open, Calls, Records;
    StepIsMove(s, r, c);
    var pc := s.requests[r];
    PlanIsSound(s.db, pc, c);
    DbGrows(s.db, PlanOf(s.db, pc, c).write);
    StaysClosed(s.db, Perform(s.db, PlanOf(s.db, pc, c).write), id);
    RefundsOnlyGrow(s.db, pc, c, id);
    WhoStartsRefunding(s.db, pc, c, id);
  }

  lemma StepKeepsUnrefunded(s: State, a: Action, id: Id)
    requires Inv(s) && Enabled(s, a) && ClosedUnrefunded(s, id)
    ensures ClosedUnrefunded(Step(s, a), id)
  {
    match a
    case Start(r, entry) =>
    case Tick(elapsed) => TickIs(s, elapsed);
    case Advance(r, c) => AdvanceKeepsUnrefunded(s, r, c, id);
  }

  lemma {:induction false} UnrefundedForever(s: State, acts: seq<Action>, id: Id)
    requires Inv(s) && IsRun(s, acts) && ClosedUnrefunded(s, id)
    ensures ClosedUnrefunded(After(s, acts), id)
  {
    if acts == [] {
    } else {
      var front := acts[..|acts| - 1];
      UnrefundedForever(s, front, id);
      RunKeepsInv(s, front);
      StepKeepsUnrefunded(After(s, front), acts[|acts| - 1], id);
    }
  }

  // A booking that can no longer be cancelled is never refunded, in any continuation, if and only if it
  // has not been refunded and no cancellation is about to call the gateway.
  lemma ClosedIsNeverRefundedIff(acts: seq<Action>, id: Id)
    requires IsRun(Init, acts)
    requires id in After(Init, acts).db.bookings && !Open(After(Init, acts).db, id)
    ensures NeverRefunded(After(Init, acts), id) <==>
            RefundsOf(After(Init, acts).db.refunds, id) == [] && !AnyCalls(After(Init, acts), id)
  {
    var s := After(Init, acts);
    InitOk();
    RunKeepsInv(Init, acts);
    if RefundsOf(s.db.refunds, id) != [] {
      assert IsRun(s, []) && After(s, []) == s;
    } else if AnyCalls(s, id) {
      var r :| r in s.requests && Calls(s.requests[r], id);
      var more := CallerRefunds(s, r, id);
      assert RefundsOf(After(s, more).db.refunds, id) != [];
    } else {
      forall more | IsRun(s, more) ensures RefundsOf(After(s, more).db.refunds, id) == [] {
        UnrefundedForever(s, more, id);
      }
    }
  }

  lemma WhoConfirms(db: Db, pc: Pc, c: Choice, id: Id)
    requires !pc.Done? && id in db.bookings && db.bookings[id].status == Confirmed
    requires id in Perform(db, PlanOf(db, pc, c).write).bookings
    requires Perform(db, PlanOf(db, pc, c).write).bookings[id].status == ArrivalConfirmed
    requires PlanOf(db, pc, c).write.InsertBooking? ==> PlanOf(db, pc, c).write.id !in db.bookings
    ensures pc.OtpWriting? && Next(db, pc, c).Done?
  {
  }

  // The step by which a request confirms the arrival: it leaves refunds and cancellations alone.
  ghost predicate Confirms(s: State, r: Id, c: Choice, id: Id) {
    && Enabled(s, Advance(r, c))
    && id in s.db.bookings && s.db.bookings[id].status == Confirmed
    && id in Step(s, Advance(r, c)).db.bookings && Step(s, Advance(r, c)).db.bookings[id].status == ArrivalConfirmed
  }

  lemma ConfirmingLeavesRefunds(s: State, r: Id, c: Choice, id: Id)
    requires Inv(s) && Confirms(s, r, c, id)
    ensures var t := Step(s, Advance(r, c));
            && id in t.db.bookings && Open(s.db, id) && !Open(t.db, id)
            && RefundsOf(t.db.refunds, id) == RefundsOf(s.db.refunds, id)
            && (AnyCalls(t, id) <==> AnyCalls(s, id))
  {
    hide PlanOf, Perform, RefundsOf, DbOk, PcOk, AnyCalls;
    var pc := s.requests[r];
    StepIsMove(s, r, c);
    InsertsAreNew(s.db, pc, c);
    WhoConfirms(s.db, pc, c, id);
    RefundsOnlyGrow(s.db, pc, c, id);
    OthersCall(s, Step(s, Advance(r, c)), r, id);
  }

  lemma OpenRefundingIff(s: State, id: Id)
    requires Open(s.db, id) && RecordsExist(s, id) && RecordPending(s, id)
    ensures AnyRefunding(s, id) <==> AnyCalls(s, id) || RefundsOf(s.db.refunds, id) != []
  {
  }

  // The arrival that ends a confirmed phase leaves a booking that is never refunded if and only if, when
  // it takes effect, the booking has not been refunded and no cancellation is about to call the gateway.
  lemma ServedIsNeverRefundedIff(acts: seq<Action>, r: Id, c: Choice, id: Id)
    requires IsRun(Init, acts) && Confirms(After(Init, acts), r, c, id)
    ensures NeverRefunded(Step(After(Init, acts), Advance(r, c)), id) <==>
            RefundsOf(After(Init, acts).db.refunds, id) == [] && !AnyCalls(After(Init, acts), id)
  {
    hide Inv, Step, IsRun, NeverRefunded, RefundsOf, AnyCalls, Open;
    var s := After(Init, acts);
    InitOk();
    RunKeepsInv(Init, acts);
    RunExtends(Init, acts, Advance(r, c));
    ConfirmingLeavesRefunds(s, r, c, id);
    ClosedIsNeverRefundedIff(acts + [Advance(r, c)], id);
  }

  // If no record was lost before, that is: no cancellation stands between its check and its record.
  lemma ServedWithoutRefundIff(acts: seq<Action>, r: Id, c: Choice, id: Id)
    requires IsRun(Init, acts) && NoRecordLost(acts, id) && Confirms(After(Init, acts), r, c, id)
    ensures NeverRefunded(Step(After(Init, acts), Advance(r, c)), id) <==> !AnyRefunding(After(Init, acts), id)
  {
    hide Inv, Step, IsRun, NeverRefunded, RefundsOf, AnyRefunding, AnyCalls, RecordPending, RecordsExist, Open;
    var s := After(Init, acts);
    InitOk();
    RunKeepsInv(Init, acts);
    RunKeepsMade(acts, id);
    RunKeepsPending(acts, id);
    ConfirmingLeavesRefunds(s, r, c, id);
    ServedIsNeverRefundedIff(acts, r, c, id);
    OpenRefundingIff(s, id);
  }

  // With a lost record it is not: the gateway makes a refund that the service takes for refused, and the
  // arrival is confirmed when no cancellation stands anywhere.
  lemma LostRecordHidesRefund(args: CreateArgs) returns (acts: seq<Action>, q: Id, c: Choice)
    requires args.price >= MIN_AMOUNT
    ensures IsRun(Init, acts) && Confirms(After(Init, acts), q, c, BOOKED)
    ensures !AnyRefunding(After(Init, acts), BOOKED) && RefundsOf(After(Init, acts).db.refunds, BOOKED) != []
    ensures !NeverRefunded(Step(After(Init, acts), Advance(q, c)), BOOKED)
  {
    hide Served, IsRun, PlanOf, Intended, NeverRefunded, Step, Confirms, AnyRefunding;
    acts, q := RefundTakenForRefused(args);
    var s := After(Init, acts);
    c := Quiet(s.db);
    ArrivalConfirms(s, q, c, BOOKED);
    ServedIsNeverRefundedIff(acts, q, c, BOOKED);
  }

  lemma ArrivalConfirms(s: State, q: Id, c: Choice, id: Id)
    requires q in s.requests && s.requests[q].OtpWriting? && s.requests[q].kind == Arrival && s.requests[q].id == id
    requires id in s.db.bookings && s.db.bookings[id].status == Confirmed
    requires c.newId !in s.db.issued && c.fault == NoFault
    ensures Confirms(s, q, c, id)
  {
    hide PlanOf, Intended;
    OtpPlan(s.db, s.requests[q], c);
    StepIsMove(s, q, c);
  }

  lemma CallTakenForRefused(args: CreateArgs) returns (acts: seq<Action>, refund: Id)
    requires args.price >= MIN_AMOUNT
    ensures IsRun(Init, acts) && Idle(After(Init, acts))
    ensures After(Init, acts).db
            == Perform(AssignedDb(args), RefundPayment(Refund(BOOKED, 2, args.price, refund)))
  {
    hide Served, IsRun, IsSerial, PlanOf, Intended;
    acts := Assigned(args);
    var s, db := After(Init, acts), AssignedDb(args);
    var p := UnusedId(s.requests.Keys);
    var c := Quiet(db);
    var lost := c.(fault := NotReported);
    refund := c.newId;
    var entry := CancelStart(BOOKED, ByProvider, args.provider);
    CancelStarts(db, entry, c);
    RefundServes(db, entry, [c], db, BOOKED, ByProvider, 2, args.price, lost);
    var paid := Perform(db, RefundPayment(Refund(BOOKED, 2, args.price, refund)));
    var first := PartlyServed(s, p, entry, [c] + [lost], paid, Done(BadRequest));
    RunsConcat(Init, acts, first);
    acts := acts + first;
  }

  lemma RefundTakenForRefused(args: CreateArgs) returns (acts: seq<Action>, q: Id)
    requires args.price >= MIN_AMOUNT
    ensures IsRun(Init, acts)
    ensures var s := After(Init, acts);
            && q in s.requests && s.requests[q] == OtpWriting(Arrival, BOOKED, 0, "arrival")
            && BOOKED in s.db.bookings && s.db.bookings[BOOKED].status == Confirmed
            && !AnyRefunding(s, BOOKED) && RefundsOf(s.db.refunds, BOOKED) != []
  {
    hide Served, IsRun, IsSerial, PlanOf, Intended, RefundsOf;
    var refund: Id;
    acts, refund := CallTakenForRefused(args);
    var s := After(Init, acts);
    var made := Refund(BOOKED, 2, args.price, refund);
    assert s.db.refunds == [] + [made];
    AnotherRefund([], made, BOOKED);
    q := UnusedId(s.requests.Keys);
    ArrivalOtpIsActive(args);
    var steps := Redeeming(s.db, Arrival, BOOKED, 0);
    var more := PartlyServed(s, q, OtpStart(Arrival, BOOKED, args.provider, "arrival"), steps,
                             Perform(s.db, MarkUsed(0)), OtpWriting(Arrival, BOOKED, 0, "arrival"));
    RunsConcat(Init, acts, more);
    acts := acts + more;
  }

  lemma InsertsAreNew(db: Db, pc: Pc, c: Choice)
    requires DbOk(db) && PcOk(db, pc) && c.newId !in db.issued
    ensures PlanOf(db, pc, c).write.InsertBooking? ==> PlanOf(db, pc, c).write.id !in db.bookings
  {
    PlanIsSound(db, pc, c);
  }

  lemma OthersCall(s: State, t: State, r: Id, id: Id)
    requires r in s.requests && !Calls(s.requests[r], id) && r in t.requests && !Calls(t.requests[r], id)
    requires forall q :: q != r ==> (q in s.requests <==> q in t.requests)
    requires forall q :: q in s.requests && q != r ==> t.requests[q] == s.requests[q]
    ensures AnyCalls(t, id) <==> AnyCalls(s, id)
  {
  }

  // The gateway is called, the arrival is confirmed, and the cancellation finds the booking gone.
  lemma ServedBookingCanBeRefunded(args: CreateArgs) returns (acts: seq<Action>, p: Id)
    requires args.price >= MIN_AMOUNT
    ensures IsRun(Init, acts) && BOOKED in After(Init, acts).db.bookings
    ensures After(Init, acts).db.bookings[BOOKED].status == ArrivalConfirmed
    ensures p in After(Init, acts).requests && After(Init, acts).requests[p] == Done(Conflict)
    ensures |RefundsOf(After(Init, acts).db.refunds, BOOKED)| == 1
    ensures RefundsOf(After(Init, acts).db.refunds, BOOKED)[0].amount == args.price
  {
    hide Served, IsRun, PlanOf, Intended, Calm;
    var q, c: Choice, d: Choice;
    acts, p, q := CancelAndArrivalMeet(args);
    var s := After(Init, acts);
    c := Quiet(s.db);
    CancelPlan(s.db, s.requests[p], c);
    StepIsMove(s, p, c);
    RunExtends(Init, acts, Advance(p, c));
    acts := acts + [Advance(p, c)];
    var t := After(Init, acts);
    var refund := Refund(BOOKED, 2, args.price, c.newId);
    assert t.db == Perform(s.db, RefundPayment(refund));
    assert t.requests[p] == CancelWriting(BOOKED, ByProvider, Some(args.price), Some(c.newId));
    AnotherRefund([], refund, BOOKED);
    assert t.db.refunds == [] + [refund] && RefundsOf([], BOOKED) == [];
    acts := ArrivalThenRecord(acts, p, q, BOOKED);
  }

  // Both are past their checks.
  lemma CancelAndArrivalMeet(args: CreateArgs) returns (acts: seq<Action>, p: Id, q: Id)
    requires args.price >= MIN_AMOUNT
    ensures IsRun(Init, acts) && p != q
    ensures var s := After(Init, acts);
            && p in s.requests && s.requests[p] == CancelRefunding(BOOKED, ByProvider, 2, args.price)
            && q in s.requests && s.requests[q] == OtpWriting(Arrival, BOOKED, 0, "arrival")
            && BOOKED in s.db.bookings && s.db.bookings[BOOKED].status == Confirmed && s.db.refunds == []
  {
    hide Served, IsRun, PlanOf, Intended;
    acts := Assigned(args);
    var db := AssignedDb(args);
    var s := After(Init, acts);
    p := UnusedId(s.requests.Keys);
    q := p + 1;
    var c := Quiet(db);
    var entry := CancelStart(BOOKED, ByProvider, args.provider);
    CancelStarts(db, entry, c);
    assert Served(db, entry, [c], db, CancelRefunding(BOOKED, ByProvider, 2, args.price));
    var first := PartlyServed(s, p, entry, [c], db, CancelRefunding(BOOKED, ByProvider, 2, args.price));
    RunsConcat(Init, acts, first);
    acts := acts + first;
    ArrivalOtpIsActive(args);
    var steps := Redeeming(db, Arrival, BOOKED, 0);
    var second := PartlyServed(After(Init, acts), q, OtpStart(Arrival, BOOKED, args.provider, "arrival"), steps,
                               Perform(db, MarkUsed(0)), OtpWriting(Arrival, BOOKED, 0, "arrival"));
    RunsConcat(Init, acts, second);
    acts := acts + second;
  }

  // The arrival is confirmed first, then the cancellation fails to record its refund.
  lemma ArrivalThenRecord(acts: seq<Action>, p: Id, q: Id, id: Id) returns (more: seq<Action>)
    requires IsRun(Init, acts) && p != q
    requires var s := After(Init, acts);
             && p in s.requests && Records(s.requests[p], id)
             && q in s.requests && s.requests[q].OtpWriting? && s.requests[q].kind == Arrival && s.requests[q].id == id
             && id in s.db.bookings && s.db.bookings[id].status == Confirmed
    ensures IsRun(Init, more)
    ensures var t := After(Init, more);
            && id in t.db.bookings && t.db.bookings[id].status == ArrivalConfirmed
            && p in t.requests && t.requests[p] == Done(Conflict) && t.db.refunds == After(Init, acts).db.refunds
  {
    hide IsRun, PlanOf, Intended;
    var s := After(Init, acts);
    var c := Quiet(s.db);
    OtpPlan(s.db, s.requests[q], c);
    StepIsMove(s, q, c);
    RunExtends(Init, acts, Advance(q, c));
    more := acts + [Advance(q, c)];
    var t := After(Init, more);
    assert t.db == Perform(s.db, ConfirmArrival(id)) && t.requests[p] == s.requests[p];
    var d := Quiet(t.db);
    CancelPlan(t.db, t.requests[p], d);
    StepIsMove(t, p, d);
    RunExtends(Init, more, Advance(p, d));
    more := more + [Advance(p, d)];
  }
}
