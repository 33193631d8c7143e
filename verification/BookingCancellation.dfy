/** What a cancellation records, and what it has the gateway refund. */
module BookingCancellation {
  import opened Common
  import opened BookingTypes
  import opened BookingStore
  import opened BookingProtocol
  import opened BookingAccess
  import opened BookingInvariant
  import opened BookingSerial
  import opened BookingServing
  import opened BookingScenarios
  import opened BookingRefunds

  predicate HoursLeft(b: Booking, hours: int, now: int) {
    b.slotStart - now >= hours * HOUR
  }

  // What the policy grants when the request looks at the booking.
  function Granted(b: Booking, who: Canceller, now: int): Option<int> {
    if who.ByProvider? then
      Some(b.amount)
    else if UserCancelRefund(b.amount, b.slotStart, now) > 0 then
      Some(UserCancelRefund(b.amount, b.slotStart, now))
    else
      None
  }

  lemma GrantedIff(b: Booking, who: Canceller, now: int)
    requires b.amount >= MIN_AMOUNT
    ensures Granted(b, who, now).Some? <==> who.ByProvider? || HoursLeft(b, 12, now)
    ensures Granted(b, who, now).Some? ==> Granted(b, who, now).value > 0
  {
  }

  // A cancellation of an unpaid booking goes straight to its record, and records a refund exactly if it
  // comes from the provider or at least twelve hours before the slot.
  lemma UnpaidCancelRecordsIff(db: Db, id: Id, who: Canceller, c: Choice)
    requires DbOk(db) && id in db.bookings && db.bookings[id].status == PendingPayment
    ensures var b := db.bookings[id];
            var next := PlanCancel(db, CancelStart(id, who, Owner(b, who)), c).ok;
            && next == CancelWriting(id, who, Granted(b, who, db.now), None)
            && (next.recorded.Some? <==> who.ByProvider? || HoursLeft(b, 12, db.now))
  {
    GrantedIff(db.bookings[id], who, db.now);
  }

  // A cancellation of a paid booking refunds what it is going to record, if that is anything.
  lemma PaidCancelRefunds(db: Db, id: Id, who: Canceller, c: Choice)
    requires DbOk(db) && id in db.bookings && db.bookings[id].status == Confirmed
    ensures var b := db.bookings[id];
            var granted := Granted(b, who, db.now);
            && b.payment.Some?
            && PlanCancel(db, CancelStart(id, who, Owner(b, who)), c).ok ==
                 if granted.Some? then
                   CancelRefunding(id, who, b.payment.value, granted.value)
                 else
                   CancelWriting(id, who, None, None)
  {
    GrantedIff(db.bookings[id], who, db.now);
  }

  // The refunds a cancellation has the gateway make, given the gateway's id for one.
  function Made(b: Booking, id: Id, who: Canceller, now: int, refund: Id): seq<Refund> {
    if b.payment.Some? && Granted(b, who, now).Some? then
      [Refund(id, b.payment.value, Granted(b, who, now).value, refund)]
    else
      []
  }

  function CancelledRow(db: Db, id: Id, who: Canceller, refund: Id): Booking
    requires id in db.bookings
  {
    var b := db.bookings[id];
    var made := Made(b, id, who, db.now, refund);
    b.(status := Cancelled, cancelledAt := Some(db.now), cancelledBy := Some(who),
       refundAmount := Granted(b, who, db.now), refundId := if made == [] then None else Some(refund))
  }

  function AfterCancel(db: Db, id: Id, who: Canceller, refund: Id): Db
    requires id in db.bookings
  {
    var made := Made(db.bookings[id], id, who, db.now, refund);
    db.(bookings := db.bookings[id := CancelledRow(db, id, who, refund)], refunds := db.refunds + made,
        issued := if made == [] then db.issued else db.issued + {refund})
  }

  lemma CancellingUnpaid(db: Db, id: Id, who: Canceller, refund: Id) returns (steps: seq<Choice>)
    requires DbOk(db) && id in db.bookings && db.bookings[id].status == PendingPayment
    ensures Served(db, CancelStart(id, who, Owner(db.bookings[id], who)), steps, AfterCancel(db, id, who, refund),
                   Done(CancelOk(id)))
    ensures AllFaultless(steps)
  {
    hide Served, DbOk;
    var b := db.bookings[id];
    var entry := CancelStart(id, who, Owner(b, who));
    var c := Quiet(db);
    UnpaidCancelRecordsIff(db, id, who, c);
    CancelStarts(db, entry, c);
    CancelServes(db, entry, [c], db, id, who, Granted(b, who, db.now), None, c);
    PendingIsUnpaid(db, id);
    assert db.refunds + [] == db.refunds;
    assert AfterCancel(db, id, who, refund) == Perform(db, Cancel(id, who, Granted(b, who, db.now), None));
    steps := [c] + [c];
  }

  lemma PendingIsUnpaid(db: Db, id: Id)
    requires DbOk(db) && id in db.bookings && db.bookings[id].status == PendingPayment
    ensures db.bookings[id].payment.None?
  {
  }

  lemma CancellingPaid(db: Db, id: Id, who: Canceller, refund: Id) returns (steps: seq<Choice>)
    requires DbOk(db) && id in db.bookings && db.bookings[id].status == Confirmed && refund !in db.issued
    ensures Served(db, CancelStart(id, who, Owner(db.bookings[id], who)), steps, AfterCancel(db, id, who, refund),
                   Done(CancelOk(id)))
    ensures AllFaultless(steps)
  {
    hide Served, DbOk;
    var b := db.bookings[id];
    var entry := CancelStart(id, who, Owner(b, who));
    var granted := Granted(b, who, db.now);
    var c := Choice(refund, true, "", NoFault);
    PaidCancelRefunds(db, id, who, c);
    CancelStarts(db, entry, c);
    if granted.Some? {
      var made := Refund(id, b.payment.value, granted.value, refund);
      RefundServes(db, entry, [c], db, id, who, b.payment.value, granted.value, c);
      var after := Perform(db, RefundPayment(made));
      var d := Quiet(after);
      CancelServes(db, entry, [c] + [c], after, id, who, granted, Some(refund), d);
      assert Made(b, id, who, db.now, refund) == [made];
      assert AfterCancel(db, id, who, refund) == Perform(after, Cancel(id, who, granted, Some(refund)));
      steps := [c] + [c] + [d];
    } else {
      CancelServes(db, entry, [c], db, id, who, None, None, c);
      assert Made(b, id, who, db.now, refund) == [] && db.refunds + [] == db.refunds;
      assert AfterCancel(db, id, who, refund) == Perform(db, Cancel(id, who, None, None));
      steps := [c] + [c];
    }
  }

  // A cancellation that nothing interferes with records exactly what the gateway refunded for it if and
  // only if the booking was paid, or the user cancels it less than twelve hours before the slot.
  lemma CancelRecordsWhatItRefundsIff(db: Db, id: Id, who: Canceller, refund: Id) returns (steps: seq<Choice>)
    requires DbOk(db) && Open(db, id) && refund !in db.issued
    ensures var b := db.bookings[id];
            var after := AfterCancel(db, id, who, refund);
            && Served(db, CancelStart(id, who, Owner(b, who)), steps, after, Done(CancelOk(id))) && AllFaultless(steps)
            && after.bookings[id].status == Cancelled && db.refunds <= after.refunds
            && (Recorded(after.bookings[id]) == TotalRefunded(after.refunds[|db.refunds|..]) <==>
                b.payment.Some? || (who.ByUser? && !HoursLeft(b, 12, db.now)))
  {
    hide Served;
    var b := db.bookings[id];
    if b.status == PendingPayment {
      steps := CancellingUnpaid(db, id, who, refund);
    } else {
      steps := CancellingPaid(db, id, who, refund);
    }
    var made := Made(b, id, who, db.now, refund);
    GrantedIff(b, who, db.now);
    TotalOfOne(made);
    assert (db.refunds + made)[|db.refunds|..] == made;
  }

  // ------------------------------------------------------------------------------------------
  // Cancellations among other requests
  // ------------------------------------------------------------------------------------------

  // Request r looks at the booking it is to cancel.
  predicate Inspects(s: State, a: Action, r: Id, id: Id, who: Canceller) {
    && a.Advance? && a.request == r && r in s.requests && s.requests[r].CancelStart?
    && s.requests[r].id == id && s.requests[r].who == who && id in s.db.bookings
  }

  // Request r's record takes effect, whether or not it learns of that.
  predicate WritesRecord(s: State, a: Action, r: Id, id: Id) {
    && a.Advance? && a.request == r && a.choice.fault != NotWritten
    && r in s.requests && s.requests[r].CancelWriting? && s.requests[r].id == id && Open(s.db, id)
  }

  ghost predicate InspectsAt(acts: seq<Action>, i: int, r: Id, id: Id, who: Canceller) {
    0 <= i < |acts| && IsRun(Init, acts[..i]) && Inspects(After(Init, acts[..i]), acts[i], r, id, who)
  }

  ghost predicate WritesRecordAt(acts: seq<Action>, j: int, r: Id, id: Id) {
    0 <= j < |acts| && IsRun(Init, acts[..j]) && WritesRecord(After(Init, acts[..j]), acts[j], r, id)
  }

  // Where a cancellation can stand that saw the booking with this payment and is granted this refund.
  predicate Carries(pc: Pc, id: Id, who: Canceller, granted: Option<int>, payment: Option<Id>) {
    match pc
    case CancelRefunding(booking, side, paid, amount) =>
      booking == id && side == who && payment == Some(paid) && granted == Some(amount)
    case CancelWriting(booking, side, recorded, refund) =>
      booking == id && side == who && recorded == granted && (refund.Some? <==> payment.Some? && granted.Some?)
    case Done(_) => true
    case _ => false
  }

  lemma CheckCarries(db: Db, pc: Pc, c: Choice)
    requires pc.CancelStart? && pc.id in db.bookings
    ensures var b := db.bookings[pc.id];
            Carries(Next(db, pc, c), pc.id, pc.who, Granted(b, pc.who, db.now), b.payment)
  {
    hide Intended;
    CancelPlan(db, pc, c);
  }

  lemma CarryingGoesOn(db: Db, pc: Pc, c: Choice, id: Id, who: Canceller, granted: Option<int>, payment: Option<Id>)
    requires Carries(pc, id, who, granted, payment) && !pc.Done?
    ensures Carries(Next(db, pc, c), id, who, granted, payment)
  {
    hide Intended;
    CancelPlan(db, pc, c);
  }

  lemma {:induction false} RunCarries(s: State, acts: seq<Action>, r: Id, id: Id, who: Canceller, granted: Option<int>,
                                      payment: Option<Id>)
    requires IsRun(s, acts) && r in s.requests && Carries(s.requests[r], id, who, granted, payment)
    ensures r in After(s, acts).requests && Carries(After(s, acts).requests[r], id, who, granted, payment)
  {
    hide PlanOf, Carries, Perform;
    if acts == [] {
    } else {
      var front, a := acts[..|acts| - 1], acts[|acts| - 1];
      RunCarries(s, front, r, id, who, granted, payment);
      var t := After(s, front);
      match a
      case Start(_, _) =>
      case Tick(elapsed) => TickIs(t, elapsed);
      case Advance(q, c) =>
        StepIsMove(t, q, c);
        if q == r {
          CarryingGoesOn(t.db, t.requests[r], c, id, who, granted, payment);
        }
    }
  }

  lemma RecordIsWritten(s: State, a: Action, r: Id, id: Id)
    requires Enabled(s, a) && WritesRecord(s, a, r, id)
    ensures var pc, db := s.requests[r], Step(s, a).db;
            && id in db.bookings && db.bookings[id].status == Cancelled && db.bookings[id].cancelledBy == Some(pc.who)
            && db.bookings[id].refundAmount == pc.recorded && db.bookings[id].refundId == pc.refund
  {
    hide Intended;
    StepIsMove(s, r, a.choice);
    CancelPlan(s.db, s.requests[r], a.choice);
  }

  // The refund on the booking's record is one the gateway made, for this booking and of this amount.
  ghost predicate RecordedAndMade(db: Db, id: Id)
    requires id in db.bookings
  {
    && db.bookings[id].refundAmount.Some? && db.bookings[id].refundId.Some?
    && MadeFor(db.refunds, id, db.bookings[id].refundId.value, db.bookings[id].refundAmount.value)
  }

  lemma RowsAreMade(acts: seq<Action>, id: Id)
    requires IsRun(Init, acts) && id in After(Init, acts).db.bookings
    ensures RowMade(After(Init, acts).db, id)
  {
    RecordedRefundsWereMade(acts);
  }

  lemma FinishedStays(s: State, acts: seq<Action>, id: Id)
    requires Inv(s) && IsRun(s, acts) && id in s.db.bookings && s.db.bookings[id].status == Cancelled
    ensures id in After(s, acts).db.bookings && After(s, acts).db.bookings[id] == s.db.bookings[id]
  {
    hide Inv;
    RunKeepsInv(s, acts);
    assert Progressed(s.db.bookings[id], After(s, acts).db.bookings[id]);
  }

  // Whatever else happens between the check of a cancellation, its record and now: what is on record is
  // what the policy granted at the check, and the refund on record was made if and only if the check saw
  // the booking paid.
  lemma RecordedRefundWasMadeIff(acts: seq<Action>, i: nat, j: nat, r: Id, id: Id, who: Canceller)
    requires IsRun(Init, acts) && i < j && InspectsAt(acts, i, r, id, who) && WritesRecordAt(acts, j, r, id)
    ensures var db, seen := After(Init, acts).db, After(Init, acts[..i]).db;
            && id in db.bookings && db.bookings[id].status == Cancelled && db.bookings[id].cancelledBy == Some(who)
            && db.bookings[id].refundAmount == Granted(seen.bookings[id], who, seen.now)
            && (db.bookings[id].refundAmount.Some? ==>
                  (RecordedAndMade(db, id) <==> seen.bookings[id].payment.Some?))
            && (db.bookings[id].refundAmount.Some? && db.bookings[id].refundId.None? <==>
                seen.bookings[id].payment.None? && Granted(seen.bookings[id], who, seen.now).Some?)
  {
    hide IsRun, Inv, PlanOf, Step, Granted, RecordMade;
    var s := After(Init, acts[..i]);
    var b := s.db.bookings[id];
    var granted := Granted(b, who, s.db.now);
    RunPrefix(Init, acts, i);
    RunPrefix(Init, acts, j);
    var t := After(Init, acts[..j]);
    assert r in t.requests && Carries(t.requests[r], id, who, granted, b.payment) by {
      CheckLeads(s, acts[i], r, id, who);
      var mid := acts[..j];
      RunSuffix(Init, mid, i + 1);
      assert mid[..i + 1] == acts[..i + 1];
      RunCarries(After(Init, acts[..i + 1]), mid[i + 1..], r, id, who, granted, b.payment);
    }
    RecordIsWritten(t, acts[j], r, id);
    InitOk();
    RunKeepsInv(Init, acts[..j + 1]);
    RunSuffix(Init, acts, j + 1);
    FinishedStays(After(Init, acts[..j + 1]), acts[j + 1..], id);
    RowsAreMade(acts, id);
    RecordMadeIs(After(Init, acts).db, id);
  }

  lemma GrantedFollowsPolicy(b: Booking, who: Canceller, now: int)
    requires b.amount >= MIN_AMOUNT
    ensures FollowsPolicy(Granted(b, who, now), b.amount, b.slotStart, who, now)
  {
  }

  lemma AmountsPart(s: State, id: Id)
    requires Inv(s) && id in s.db.bookings
    ensures s.db.bookings[id].amount >= MIN_AMOUNT
  {
  }

  // The record follows the policy at the moment the cancellation looked at the booking.
  lemma RecordFollowsPolicy(acts: seq<Action>, i: nat, j: nat, r: Id, id: Id, who: Canceller)
    requires IsRun(Init, acts) && i < j && InspectsAt(acts, i, r, id, who) && WritesRecordAt(acts, j, r, id)
    ensures var db, seen := After(Init, acts).db, After(Init, acts[..i]).db;
            id in db.bookings &&
            FollowsPolicy(db.bookings[id].refundAmount, seen.bookings[id].amount, seen.bookings[id].slotStart, who, seen.now)
  {
    hide IsRun, Inv, Granted, FollowsPolicy;
    var s := After(Init, acts[..i]);
    InitOk();
    RunKeepsInv(Init, acts[..i]);
    AmountsPart(s, id);
    RecordedRefundWasMadeIff(acts, i, j, r, id, who);
    GrantedFollowsPolicy(s.db.bookings[id], who, s.db.now);
  }

  // Request r has the gateway make a refund, whether or not it learns of that.
  predicate Refunds(s: State, a: Action, r: Id, id: Id) {
    && a.Advance? && a.request == r && a.choice.gatewayOk && a.choice.fault != NotWritten
    && r in s.requests && s.requests[r].CancelRefunding? && s.requests[r].id == id
  }

  ghost predicate RefundsAt(acts: seq<Action>, j: int, r: Id, id: Id) {
    0 <= j < |acts| && IsRun(Init, acts[..j]) && Refunds(After(Init, acts[..j]), acts[j], r, id)
  }

  lemma RefundIsMade(s: State, a: Action, r: Id, id: Id)
    requires Enabled(s, a) && Refunds(s, a, r, id)
    ensures var pc := s.requests[r];
            Step(s, a).db.refunds == s.db.refunds + [Refund(id, pc.payment, pc.amount, a.choice.newId)]
  {
    hide Intended;
    StepIsMove(s, r, a.choice);
    CancelPlan(s.db, s.requests[r], a.choice);
  }

  // So does what the gateway refunds, and it refunds the payment the cancellation saw.
  lemma RefundFollowsPolicy(acts: seq<Action>, i: nat, j: nat, r: Id, id: Id, who: Canceller)
    requires IsRun(Init, acts) && i < j && InspectsAt(acts, i, r, id, who) && RefundsAt(acts, j, r, id)
    ensures var seen, before := After(Init, acts[..i]).db, After(Init, acts[..j]).db.refunds;
            var b := seen.bookings[id];
            && IsRun(Init, acts[..j + 1]) && |After(Init, acts[..j + 1]).db.refunds| == |before| + 1
            && before <= After(Init, acts[..j + 1]).db.refunds
            && (var refund := After(Init, acts[..j + 1]).db.refunds[|before|];
                && refund.booking == id && b.payment == Some(refund.payment)
                && FollowsPolicy(Some(refund.amount), b.amount, b.slotStart, who, seen.now))
  {
    hide IsRun, Inv, PlanOf, Step, Granted, FollowsPolicy;
    var s := After(Init, acts[..i]);
    var b := s.db.bookings[id];
    InitOk();
    RunKeepsInv(Init, acts[..i]);
    AmountsPart(s, id);
    GrantedFollowsPolicy(b, who, s.db.now);
    RunPrefix(Init, acts, i);
    RunPrefix(Init, acts, j);
    CheckLeads(s, acts[i], r, id, who);
    var mid := acts[..j];
    RunSuffix(Init, mid, i + 1);
    assert mid[..i + 1] == acts[..i + 1];
    RunCarries(After(Init, acts[..i + 1]), mid[i + 1..], r, id, who, Granted(b, who, s.db.now), b.payment);
    RefundIsMade(After(Init, acts[..j]), acts[j], r, id);
  }

  lemma RecordMadeIs(db: Db, id: Id)
    requires id in db.bookings && RowMade(db, id)
    ensures db.bookings[id].refundAmount.Some? ==> (RecordedAndMade(db, id) <==> db.bookings[id].refundId.Some?)
  {
  }

  lemma CheckLeads(s: State, a: Action, r: Id, id: Id, who: Canceller)
    requires Enabled(s, a) && Inspects(s, a, r, id, who)
    ensures var b := s.db.bookings[id];
            r in Step(s, a).requests &&
            Carries(Step(s, a).requests[r], id, who, Granted(b, who, s.db.now), b.payment)
  {
    hide PlanOf, Carries, Granted, Perform;
    StepIsMove(s, r, a.choice);
    CheckCarries(s.db, s.requests[r], a.choice);
  }

  lemma CancelCameFrom(db: Db, pc: Pc, c: Choice)
    requires !pc.Done? && (Next(db, pc, c).CancelRefunding? || Next(db, pc, c).CancelWriting?)
    ensures (pc.CancelStart? && pc.id in db.bookings) || pc.CancelRefunding?
    ensures Next(db, pc, c).id == pc.id && Next(db, pc, c).who == pc.who
  {
    hide Intended;
    if pc.CancelStart? || pc.CancelRefunding? || pc.CancelWriting? {
      CancelPlan(db, pc, c);
    } else {
      OtherNextIsDue(db, pc, c);
    }
  }

  // A cancellation on its way has looked at its booking.
  lemma {:induction false} WriterWasChecked(acts: seq<Action>, r: Id) returns (i: nat)
    requires IsRun(Init, acts) && r in After(Init, acts).requests
    requires After(Init, acts).requests[r].CancelRefunding? || After(Init, acts).requests[r].CancelWriting?
    ensures var pc := After(Init, acts).requests[r]; InspectsAt(acts, i, r, pc.id, pc.who)
  {
    hide PlanOf, Perform;
    var front, a := acts[..|acts| - 1], acts[|acts| - 1];
    var s := After(Init, front);
    if a.Advance? && a.request == r && s.requests[r].CancelStart? {
      StepIsMove(s, r, a.choice);
      CancelCameFrom(s.db, s.requests[r], a.choice);
      i := |acts| - 1;
    } else {
      if a.Advance? {
        StepIsMove(s, a.request, a.choice);
        if a.request == r {
          CancelCameFrom(s.db, s.requests[r], a.choice);
        }
      }
      i := WriterWasChecked(front, r);
      assert front[..i] == acts[..i];
    }
  }

  lemma WhoRefunds(db: Db, pc: Pc, c: Choice)
    requires !pc.Done?
    ensures PlanOf(db, pc, c).write.RefundPayment? <==> pc.CancelRefunding? && c.gatewayOk && c.fault != NotWritten
  {
  }

  lemma WriteRefunds(db: Db, w: Write)
    ensures !w.RefundPayment? ==> Perform(db, w).refunds == db.refunds
    ensures w.RefundPayment? ==> |Perform(db, w).refunds| == |db.refunds| + 1
  {
  }

  // Every refund the gateway made is that of a cancellation that had looked at the booking.
  lemma {:induction false} RefundsWereChecked(acts: seq<Action>, k: nat) returns (i: nat, j: nat, r: Id, who: Canceller)
    requires IsRun(Init, acts) && k < |After(Init, acts).db.refunds|
    ensures var id := After(Init, acts).db.refunds[k].booking;
            i < j && InspectsAt(acts, i, r, id, who) && RefundsAt(acts, j, r, id) && |After(Init, acts[..j]).db.refunds| == k
  {
    hide Inv, Inspects, PlanOf, Perform;
    var front, a := acts[..|acts| - 1], acts[|acts| - 1];
    var s := After(Init, front);
    if a.Advance? {
      StepIsMove(s, a.request, a.choice);
      WhoRefunds(s.db, s.requests[a.request], a.choice);
      WriteRefunds(s.db, PlanOf(s.db, s.requests[a.request], a.choice).write);
    }
    if k < |s.db.refunds| {
      i, j, r, who := RefundsWereChecked(front, k);
      assert front[..i] == acts[..i] && front[..j] == acts[..j];
      InitOk();
      RunKeepsInv(Init, front);
      StepGrows(s, a);
    } else {
      j, r := |acts| - 1, a.request;
      who := s.requests[r].who;
      i := WriterWasChecked(front, r);
      assert front[..i] == acts[..i];
      RefundIsMade(s, a, r, s.requests[r].id);
    }
  }

  lemma WriteCancels(db: Db, w: Write, id: Id)
    requires id in Perform(db, w).bookings && Perform(db, w).bookings[id].status == Cancelled
    requires id in db.bookings ==> db.bookings[id].status != Cancelled
    requires w.InsertBooking? ==> w.row.status == PendingPayment
    ensures w.Cancel? && w.id == id && Open(db, id)
  {
  }

  lemma CancelIsWritten(db: Db, pc: Pc, c: Choice)
    requires !pc.Done? && PlanOf(db, pc, c).write.Cancel?
    ensures c.fault != NotWritten && pc.CancelWriting? && PlanOf(db, pc, c).write.id == pc.id
  {
    CancelPlanIs(db, pc, c);
  }

  lemma StepRecords(s: State, a: Action, id: Id)
    requires Inv(s) && Enabled(s, a)
    requires id in Step(s, a).db.bookings && Step(s, a).db.bookings[id].status == Cancelled
    requires id in s.db.bookings ==> s.db.bookings[id].status != Cancelled
    ensures a.Advance? && WritesRecord(s, a, a.request, id)
  {
    hide PlanOf, DbOk, PcOk, Perform;
    if a.Advance? {
      var pc := s.requests[a.request];
      StepIsMove(s, a.request, a.choice);
      PlanIsSound(s.db, pc, a.choice);
      WriteCancels(s.db, PlanOf(s.db, pc, a.choice).write, id);
      CancelIsWritten(s.db, pc, a.choice);
    }
  }

  // Every cancelled row is the record of such a cancellation.
  lemma {:induction false} CancelledRowsWereChecked(acts: seq<Action>, id: Id)
    returns (i: nat, j: nat, r: Id, who: Canceller)
    requires IsRun(Init, acts)
    requires id in After(Init, acts).db.bookings && After(Init, acts).db.bookings[id].status == Cancelled
    ensures i < j && InspectsAt(acts, i, r, id, who) && WritesRecordAt(acts, j, r, id)
  {
    hide Inv, Step, Inspects, WritesRecord;
    var front, a := acts[..|acts| - 1], acts[|acts| - 1];
    var s := After(Init, front);
    if id in s.db.bookings && s.db.bookings[id].status == Cancelled {
      i, j, r, who := CancelledRowsWereChecked(front, id);
      assert front[..i] == acts[..i] && front[..j] == acts[..j];
    } else {
      InitOk();
      RunKeepsInv(Init, front);
      StepRecords(s, a, id);
      j, r := |acts| - 1, a.request;
      assert s.requests[r].CancelWriting? && s.requests[r].id == id by { RecorderWrites(s, a, r, id); }
      who := s.requests[r].who;
      i := WriterWasChecked(front, r);
      assert front[..i] == acts[..i];
    }
  }

  lemma RecorderWrites(s: State, a: Action, r: Id, id: Id)
    requires WritesRecord(s, a, r, id)
    ensures r in s.requests && s.requests[r].CancelWriting? && s.requests[r].id == id
  {
  }

  // A booking that was never paid ends up with a refund on record that the gateway never made.
  lemma UnpaidRefundIsRecorded(args: CreateArgs) returns (acts: seq<Action>)
    requires args.price >= MIN_AMOUNT
    ensures Calm(acts)
    ensures var db := After(Init, acts).db;
            && BOOKED in db.bookings && db.bookings[BOOKED].status == Cancelled && db.bookings[BOOKED].payment.None?
            && db.bookings[BOOKED].refundAmount == Some(args.price) && db.refunds == []
  {
    hide Served, Calm;
    acts := Pending(args);
    var db := Stored(EmptyDb, args, 0, BOOKED);
    CalmIsOk(acts);
    var steps := CancellingUnpaid(db, BOOKED, ByProvider, 2);
    var r: Id;
    acts, r := Handled(acts, CancelStart(BOOKED, ByProvider, args.provider), steps, AfterCancel(db, BOOKED, ByProvider, 2),
                       CancelOk(BOOKED));
  }

  // A provider's cancellation has looked at the unpaid booking and is about to record the refund.
  lemma AboutToRecord(args: CreateArgs) returns (acts: seq<Action>, r: Id)
    requires args.price >= MIN_AMOUNT
    ensures FaultlessRun(acts)
    ensures After(Init, acts).db == Stored(EmptyDb, args, 0, BOOKED) && DbOk(After(Init, acts).db)
    ensures r in After(Init, acts).requests
    ensures After(Init, acts).requests[r] == CancelWriting(BOOKED, ByProvider, Some(args.price), None)
  {
    hide Served, IsRun, DbOk, Faultless;
    acts := Pending(args);
    var db := Stored(EmptyDb, args, 0, BOOKED);
    CalmIsOk(acts);
    CalmIsFaultless(acts);
    r := UnusedId(After(Init, acts).requests.Keys);
    var c := Quiet(db);
    var entry := CancelStart(BOOKED, ByProvider, args.provider);
    UnpaidCancelRecordsIff(db, BOOKED, ByProvider, c);
    CancelStarts(db, entry, c);
    acts := Begun(acts, r, entry, [c], db, CancelWriting(BOOKED, ByProvider, Some(args.price), None));
  }

  // The booking is paid between the check and the record of the provider's cancellation: the user has paid,
  // the row says that all of it was refunded, and nothing was.
  lemma PaidRefundIsRecordedUnmade(args: CreateArgs) returns (acts: seq<Action>)
    requires args.price >= MIN_AMOUNT
    ensures FaultlessRun(acts)
    ensures var db := After(Init, acts).db;
            && BOOKED in db.bookings && db.bookings[BOOKED].status == Cancelled
            && db.bookings[BOOKED].payment == Some(2)
            && db.bookings[BOOKED].refundAmount == Some(args.price) && db.bookings[BOOKED].refundId.None?
            && db.refunds == []
  {
    hide Served, IsRun, PlanOf, DbOk, Faultless;
    var r: Id;
    acts, r := AboutToRecord(args);
    var db := Stored(EmptyDb, args, 0, BOOKED);
    OrdersPart(db);
    var steps := Capturing(db, "paid", BOOKED, 2);
    assert Perform(Claimed(db, "paid"), Capture(BOOKED, 2)) == PaidDb(args);
    var q := UnusedId(After(Init, acts).requests.Keys);
    acts := Begun(acts, q, HookStart("paid", PaymentCaptured(Some(0), Some(2))), steps, PaidDb(args), Done(HookOk));
    var c := Quiet(PaidDb(args));
    RecordGoesThrough(PaidDb(args), BOOKED, ByProvider, Some(args.price), c);
    acts := GoneOn(acts, r, c);
  }

  lemma RecordGoesThrough(db: Db, id: Id, who: Canceller, recorded: Option<int>, c: Choice)
    requires Open(db, id) && c.fault == NoFault
    ensures Move(Spot(db, CancelWriting(id, who, recorded, None)), c)
            == Spot(Perform(db, Cancel(id, who, recorded, None)), Done(CancelOk(id)))
  {
    hide Intended;
    CancelPlan(db, CancelWriting(id, who, recorded, None), c);
  }

  lemma CalmIsOk(acts: seq<Action>)
    requires Calm(acts)
    ensures IsRun(Init, acts) && DbOk(After(Init, acts).db)
  {
    InitOk();
    RunKeepsInv(Init, acts);
  }
}
