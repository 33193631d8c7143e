/**
 How much a cancellation records, whatever requests race: a provider's cancellation the full amount, a
 user's what the policy grants at the time the request looked at the booking.
 */
module BookingRefunds {
  import opened Common
  import opened BookingTypes
  import opened BookingStore
  import opened BookingProtocol
  import opened BookingInvariant

  // What the policy grants to a cancellation at this time, in numbers: all of it to a provider; to a user
  // all of it a day ahead, half of it half a day ahead, and nothing later.
  predicate FollowsPolicy(granted: Option<int>, amount: int, slotStart: int, who: Canceller, now: int) {
    var left := slotStart - now;
    match who
    case ByProvider => granted == Some(amount)
    case ByUser =>
      && (granted == Some(amount) <==> left >= 24 * 60 * 60 * 1000)
      && (granted == Some(amount / 2) <==> 12 * 60 * 60 * 1000 <= left < 24 * 60 * 60 * 1000)
      && (granted == None <==> left < 12 * 60 * 60 * 1000)
  }

  function RefundAt(amount: int, slotStart: int, at: int): Option<int> {
    var refund := UserCancelRefund(amount, slotStart, at);
    if refund > 0 then Some(refund) else None
  }

  // What a cancellation by this side may record at this time.
  ghost predicate Due(amount: int, slotStart: int, who: Canceller, recorded: Option<int>, now: int) {
    match who
    case ByProvider => recorded == Some(amount)
    case ByUser => exists at :: at <= now && recorded == RefundAt(amount, slotStart, at)
  }

  ghost predicate RowDue(b: Booking) {
    b.cancelledBy.Some? && b.cancelledAt.Some? ==>
      Due(b.amount, b.slotStart, b.cancelledBy.value, b.refundAmount, b.cancelledAt.value)
  }

  ghost predicate RowsDue(db: Db) {
    forall id :: id in db.bookings ==> RowDue(db.bookings[id])
  }

  // A cancellation on its way holds what it is going to record.
  ghost predicate PcDue(db: Db, pc: Pc) {
    match pc
    case CancelRefunding(id, who, _, amount) =>
      id in db.bookings && Due(db.bookings[id].amount, db.bookings[id].slotStart, who, Some(amount), db.now)
    case CancelWriting(id, who, recorded, _) =>
      id in db.bookings && Due(db.bookings[id].amount, db.bookings[id].slotStart, who, recorded, db.now)
    case _ => true
  }

  ghost predicate AllDue(s: State) {
    RowsDue(s.db) && forall r :: r in s.requests ==> PcDue(s.db, s.requests[r])
  }

  lemma CancelNextIsDue(db: Db, pc: Pc, c: Choice)
    requires PcDue(db, pc) && (pc.CancelStart? || pc.CancelRefunding? || pc.CancelWriting?)
    ensures PcDue(Perform(db, PlanCancel(db, pc, c).write), Outcome(db, PlanCancel(db, pc, c)))
  {
    if pc.CancelStart? && pc.id in db.bookings {
      var b := db.bookings[pc.id];
      assert RefundAt(b.amount, b.slotStart, db.now) == RefundAt(b.amount, b.slotStart, db.now);
    }
  }

  lemma OtherNextIsDue(db: Db, pc: Pc, c: Choice)
    requires !pc.CancelStart? && !pc.CancelRefunding? && !pc.CancelWriting? && !pc.Done?
    ensures !Next(db, pc, c).CancelRefunding? && !Next(db, pc, c).CancelWriting?
    ensures !PlanOf(db, pc, c).write.Cancel?
  {
  }

  lemma NextIsDue(db: Db, pc: Pc, c: Choice)
    requires PcDue(db, pc) && !pc.Done?
    ensures PcDue(Perform(db, PlanOf(db, pc, c).write), Next(db, pc, c))
  {
    if pc.CancelStart? || pc.CancelRefunding? || pc.CancelWriting? {
      CancelNextIsDue(db, pc, c);
    } else {
      OtherNextIsDue(db, pc, c);
    }
  }

  lemma CancelPlanIs(db: Db, pc: Pc, c: Choice)
    requires PlanOf(db, pc, c).write.Cancel? && !pc.Done?
    ensures pc.CancelWriting? && PlanOf(db, pc, c).write == Cancel(pc.id, pc.who, pc.recorded, pc.refund)
  {
  }

  lemma WriteKeepsRowDue(db: Db, w: Write, id: Id)
    requires RowsDue(db) && id in Perform(db, w).bookings
    requires w.InsertBooking? ==> w.row.cancelledBy == None
    requires w.Cancel? && w.id in db.bookings ==>
               Due(db.bookings[w.id].amount, db.bookings[w.id].slotStart, w.who, w.amount, db.now)
    ensures RowDue(Perform(db, w).bookings[id])
  {
    assert id in db.bookings ==> RowDue(db.bookings[id]);
  }

  lemma DueLater(db: Db, later: Db, pc: Pc)
    requires Grown(db, later) && PcDue(db, pc)
    ensures PcDue(later, pc)
  {
    if pc.CancelRefunding? || pc.CancelWriting? {
      assert Progressed(db.bookings[pc.id], later.bookings[pc.id]);
    }
  }

  lemma AdvanceKeepsDue(s: State, r: Id, c: Choice)
    requires Inv(s) && AllDue(s) && Enabled(s, Advance(r, c))
    ensures var pc := s.requests[r];
            AllDue(State(Perform(s.db, PlanOf(s.db, pc, c).write), s.requests[r := Next(s.db, pc, c)]))
  {
    var pc := s.requests[r];
    var w := PlanOf(s.db, pc, c).write;
    var after := Perform(s.db, w);
    assert WriteOk(s.db, w) by { PlanIsSound(s.db, pc, c); }
    forall id | id in after.bookings ensures RowDue(after.bookings[id]) {
      if w.Cancel? {
        CancelPlanIs(s.db, pc, c);
      }
      WriteKeepsRowDue(s.db, w, id);
    }
    assert PcDue(after, Next(s.db, pc, c)) by { NextIsDue(s.db, pc, c); }
    forall q | q in s.requests && q != r ensures PcDue(after, s.requests[q]) {
      DbGrows(s.db, w);
      DueLater(s.db, after, s.requests[q]);
    }
  }

  lemma StepKeepsDue(s: State, a: Action)
    requires Inv(s) && AllDue(s) && Enabled(s, a)
    ensures AllDue(Step(s, a))
  {
    hide PlanOf, Inv, Due;
    match a
    case Start(r, entry) =>
    case Advance(r, c) =>
      StepIsMove(s, r, c);
      AdvanceKeepsDue(s, r, c);
    case Tick(elapsed) =>
      var later := s.db.(now := s.db.now + elapsed);
      forall r | r in s.requests ensures PcDue(later, s.requests[r]) {
        DueLater(s.db, later, s.requests[r]);
      }
      TickIs(s, elapsed);
  }

  lemma {:induction false} RunKeepsDue(acts: seq<Action>)
    requires IsRun(Init, acts)
    ensures AllDue(After(Init, acts))
  {
    if acts == [] {
    } else {
      RunKeepsDue(acts[..|acts| - 1]);
      InitOk();
      RunKeepsInv(Init, acts[..|acts| - 1]);
      StepKeepsDue(After(Init, acts[..|acts| - 1]), acts[|acts| - 1]);
    }
  }

  lemma RefundAtFollowsPolicy(amount: int, slotStart: int, at: int)
    requires amount >= MIN_AMOUNT
    ensures FollowsPolicy(RefundAt(amount, slotStart, at), amount, slotStart, ByUser, at)
  {
  }

  // In every interleaving a booking cancelled by its provider records its full amount, and one cancelled
  // by its user what the policy grants at some time up to the cancellation, which is at least what it
  // grants at the cancellation itself: all of it a day ahead or more, half from then to half a day ahead.
  lemma RefundsFollowPolicy(acts: seq<Action>, id: Id)
    requires IsRun(Init, acts)
    requires id in After(Init, acts).db.bookings && After(Init, acts).db.bookings[id].status == Cancelled
    ensures var b := After(Init, acts).db.bookings[id];
            var recorded := if b.refundAmount.Some? then b.refundAmount.value else 0;
            && b.cancelledBy.Some? && b.cancelledAt.Some?
            && (exists at :: at <= b.cancelledAt.value &&
                             FollowsPolicy(b.refundAmount, b.amount, b.slotStart, b.cancelledBy.value, at))
            && (b.cancelledBy == Some(ByProvider) ==> recorded == b.amount)
            && (b.cancelledBy == Some(ByUser) ==> recorded in {0, b.amount / 2, b.amount})
            && (b.cancelledBy == Some(ByUser) && b.cancelledAt.value <= b.slotStart - 24 * HOUR ==>
                  recorded == b.amount)
            && (b.cancelledBy == Some(ByUser) && b.cancelledAt.value <= b.slotStart - 12 * HOUR ==>
                  recorded >= b.amount / 2)
  {
    hide Inv, IsRun, FollowsPolicy, RowDue;
    InitOk();
    RunKeepsInv(Init, acts);
    RunKeepsDue(acts);
    CancelledRow(After(Init, acts), id);
    var b := After(Init, acts).db.bookings[id];
    var at := DueRowFollowsPolicy(b);
    WhatFollowsPolicy(b.refundAmount, b.amount, b.slotStart, b.cancelledBy.value, at);
  }

  lemma CancelledRow(s: State, id: Id)
    requires Inv(s) && id in s.db.bookings && s.db.bookings[id].status == Cancelled
    ensures var b := s.db.bookings[id]; b.amount >= MIN_AMOUNT && b.cancelledBy.Some? && b.cancelledAt.Some?
  {
  }

  lemma DueRowFollowsPolicy(b: Booking) returns (at: int)
    requires RowDue(b) && b.amount >= MIN_AMOUNT && b.cancelledBy.Some? && b.cancelledAt.Some?
    ensures at <= b.cancelledAt.value
    ensures FollowsPolicy(b.refundAmount, b.amount, b.slotStart, b.cancelledBy.value, at)
  {
    hide FollowsPolicy, RefundAt;
    at := b.cancelledAt.value;
    if b.cancelledBy == Some(ByUser) {
      at :| at <= b.cancelledAt.value && b.refundAmount == RefundAt(b.amount, b.slotStart, at);
      RefundAtFollowsPolicy(b.amount, b.slotStart, at);
    } else {
      assert FollowsPolicy(b.refundAmount, b.amount, b.slotStart, ByProvider, at) by { ProviderGetsAll(b, at); }
    }
  }

  lemma ProviderGetsAll(b: Booking, at: int)
    requires b.refundAmount == Some(b.amount)
    ensures FollowsPolicy(b.refundAmount, b.amount, b.slotStart, ByProvider, at)
  {
  }

  lemma WhatFollowsPolicy(granted: Option<int>, amount: int, slotStart: int, who: Canceller, at: int)
    requires FollowsPolicy(granted, amount, slotStart, who, at) && amount >= MIN_AMOUNT
    ensures var recorded := if granted.Some? then granted.value else 0;
            && (who == ByProvider ==> recorded == amount)
            && (who == ByUser ==> recorded in {0, amount / 2, amount})
            && (who == ByUser && at <= slotStart - 24 * HOUR ==> recorded == amount)
            && (who == ByUser && at <= slotStart - 12 * HOUR ==> recorded >= amount / 2)
  {
  }

  // ------------------------------------------------------------------------------------------
  // Recorded refunds were made
  // ------------------------------------------------------------------------------------------

  ghost predicate MadeFor(refunds: seq<Refund>, id: Id, refund: Id, amount: int) {
    exists i :: 0 <= i < |refunds| && refunds[i].booking == id && refunds[i].id == refund && refunds[i].amount == amount
  }

  ghost predicate RecordMade(refunds: seq<Refund>, id: Id, refund: Option<Id>, amount: Option<int>) {
    refund.Some? ==> amount.Some? && MadeFor(refunds, id, refund.value, amount.value)
  }

  ghost predicate PcMade(db: Db, pc: Pc) {
    pc.CancelWriting? ==> RecordMade(db.refunds, pc.id, pc.refund, pc.recorded)
  }

  ghost predicate RowMade(db: Db, id: Id)
    requires id in db.bookings
  {
    RecordMade(db.refunds, id, db.bookings[id].refundId, db.bookings[id].refundAmount)
  }

  ghost predicate AllMade(s: State) {
    && (forall id :: id in s.db.bookings ==> RowMade(s.db, id))
    && forall r :: r in s.requests ==> PcMade(s.db, s.requests[r])
  }

  lemma RecordStaysMade(refunds: seq<Refund>, later: seq<Refund>, id: Id, refund: Option<Id>, amount: Option<int>)
    requires refunds <= later && RecordMade(refunds, id, refund, amount)
    ensures RecordMade(later, id, refund, amount)
  {
    if refund.Some? {
      var i :| 0 <= i < |refunds| && refunds[i].booking == id && refunds[i].id == refund.value &&
               refunds[i].amount == amount.value;
      assert later[i] == refunds[i];
    }
  }

  lemma WriteKeepsRowMade(db: Db, w: Write, id: Id)
    requires db.refunds <= Perform(db, w).refunds && id in Perform(db, w).bookings
    requires id in db.bookings ==> RowMade(db, id)
    requires w.InsertBooking? ==> w.row.refundId == None
    requires w.Cancel? ==> RecordMade(db.refunds, w.id, w.refund, w.amount)
    ensures RowMade(Perform(db, w), id)
  {
    var b := Perform(db, w).bookings[id];
    assert RecordMade(db.refunds, id, b.refundId, b.refundAmount);
    RecordStaysMade(db.refunds, Perform(db, w).refunds, id, b.refundId, b.refundAmount);
  }

  lemma CancelNextIsMade(db: Db, pc: Pc, c: Choice)
    requires PcMade(db, pc) && (pc.CancelStart? || pc.CancelRefunding? || pc.CancelWriting?)
    ensures PcMade(Perform(db, PlanCancel(db, pc, c).write), Outcome(db, PlanCancel(db, pc, c)))
  {
    if pc.CancelRefunding? && c.gatewayOk {
      var refunds := db.refunds + [Refund(pc.id, pc.payment, pc.amount, c.newId)];
      assert refunds[|db.refunds|] == Refund(pc.id, pc.payment, pc.amount, c.newId);
    }
  }

  lemma NextIsMade(db: Db, pc: Pc, c: Choice)
    requires PcMade(db, pc) && !pc.Done?
    ensures PcMade(Perform(db, PlanOf(db, pc, c).write), Next(db, pc, c))
  {
    hide PcMade;
    if pc.CancelStart? || pc.CancelRefunding? || pc.CancelWriting? {
      CancelNextIsMade(db, pc, c);
      UpdatesCanBeRefused(db, pc, c);
      DoneIsMade(Perform(db, PlanOf(db, pc, c).write), Next(db, pc, c));
    } else {
      OtherNextIsDue(db, pc, c);
      DoneIsMade(Perform(db, PlanOf(db, pc, c).write), Next(db, pc, c));
    }
  }

  lemma DoneIsMade(db: Db, pc: Pc)
    ensures !pc.CancelWriting? ==> PcMade(db, pc)
  {
  }

  lemma AdvanceKeepsAllMade(s: State, r: Id, c: Choice)
    requires Inv(s) && AllMade(s) && Enabled(s, Advance(r, c))
    ensures AllMade(Step(s, Advance(r, c)))
  {
    hide DbOk, PlanOf, RowMade, PcMade, RecordMade, Perform;
    StepIsMove(s, r, c);
    var pc := s.requests[r];
    var w := PlanOf(s.db, pc, c).write;
    var after := Perform(s.db, w);
    PlanIsSound(s.db, pc, c);
    DbGrows(s.db, w);
    WhatCancelRecords(s.db, pc, c);
    assert w.InsertBooking? ==> w.row.refundId == None;
    assert s.db.refunds <= after.refunds;
    forall id | id in after.bookings ensures RowMade(after, id) {
      assert id in s.db.bookings ==> RowMade(s.db, id);
      WriteKeepsRowMade(s.db, w, id);
    }
    NextIsMade(s.db, pc, c);
    forall q | q in s.requests && q != r ensures PcMade(after, s.requests[q]) {
      PcStaysMade(s.db, after, s.requests[q]);
    }
  }

  lemma WhatCancelRecords(db: Db, pc: Pc, c: Choice)
    requires PcMade(db, pc) && !pc.Done?
    ensures var w := PlanOf(db, pc, c).write; w.Cancel? ==> RecordMade(db.refunds, w.id, w.refund, w.amount)
  {
    if PlanOf(db, pc, c).write.Cancel? {
      CancelPlanIs(db, pc, c);
    }
  }

  lemma PcStaysMade(db: Db, later: Db, pc: Pc)
    requires Grown(db, later) && PcMade(db, pc)
    ensures PcMade(later, pc)
  {
    if pc.CancelWriting? {
      RecordStaysMade(db.refunds, later.refunds, pc.id, pc.refund, pc.recorded);
    }
  }

  lemma StepKeepsAllMade(s: State, a: Action)
    requires Inv(s) && AllMade(s) && Enabled(s, a)
    ensures AllMade(Step(s, a))
  {
    match a
    case Start(r, entry) =>
    case Advance(r, c) => AdvanceKeepsAllMade(s, r, c);
    case Tick(elapsed) =>
      TickIs(s, elapsed);
      var t := s.(db := s.db.(now := s.db.now + elapsed));
      assert forall id :: id in t.db.bookings ==> RowMade(s.db, id) && RowMade(t.db, id);
      assert forall r :: r in t.requests ==> PcMade(s.db, t.requests[r]) && PcMade(t.db, t.requests[r]);
  }

  // In every interleaving a refund id on a booking is that of a refund the gateway made for this booking,
  // of exactly the recorded amount.
  lemma {:induction false} RecordedRefundsWereMade(acts: seq<Action>)
    requires IsRun(Init, acts)
    ensures AllMade(After(Init, acts))
  {
    if acts == [] {
    } else {
      var front := acts[..|acts| - 1];
      RecordedRefundsWereMade(front);
      InitOk();
      RunKeepsInv(Init, front);
      StepKeepsAllMade(After(Init, front), acts[|acts| - 1]);
    }
  }
}
