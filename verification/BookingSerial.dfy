/**
 What holds of the booking service when each request runs whole, no other starting before it has been
 answered, and no status update meets a database fault.  Time may pass anywhere.
 */
module BookingSerial {
  import opened Common
  import opened BookingTypes
  import opened BookingStore
  import opened BookingProtocol
  import opened BookingInvariant

  ghost predicate Idle(s: State) {
    forall r :: r in s.requests ==> s.requests[r].Done?
  }

  predicate Faultless(a: Action) {
    a.Advance? ==> a.choice.fault == NoFault
  }

  ghost predicate IsSerial(s: State, acts: seq<Action>)
    requires IsRun(s, acts)
  {
    acts == [] ||
    (IsSerial(s, acts[..|acts| - 1]) && (acts[|acts| - 1].Start? ==> Idle(After(s, acts[..|acts| - 1]))) &&
     Faultless(acts[|acts| - 1]))
  }

  // The request being served, if any; a finished one otherwise.
  ghost predicate IsServing(s: State, cur: Pc) {
    && (forall r :: r in s.requests ==> s.requests[r] == cur || s.requests[r].Done?)
    && (!cur.Done? ==> exists r :: r in s.requests && s.requests[r] == cur)
    && (forall p, q :: p in s.requests && q in s.requests && !s.requests[p].Done? && !s.requests[q].Done? ==> p == q)
  }

  // ------------------------------------------------------------------------------------------
  // Arrival OTPs
  // ------------------------------------------------------------------------------------------

  ghost predicate ExpiryOk(db: Db) {
    && (forall j, k :: 0 <= j <= k < |db.otps| ==> db.otps[j].expiresAt <= db.otps[k].expiresAt)
    && (forall k :: 0 <= k < |db.otps| ==> db.otps[k].expiresAt <= db.now + OTP_TTL)
  }

  predicate Awaiting(db: Db, id: Id) {
    id in db.bookings && db.bookings[id].status == Confirmed
  }

  // While a booking is confirmed, only the request about to confirm the arrival has used an arrival OTP.
  ghost predicate UnusedOk(db: Db, cur: Pc) {
    forall k :: 0 <= k < |db.otps| && db.otps[k].kind == Arrival && db.otps[k].usedAt.Some? &&
                Awaiting(db, db.otps[k].booking) ==>
                  cur.OtpWriting? && cur.kind == Arrival && cur.index == k
  }

  // No arrival OTP was issued for the booking after the k-th OTP.
  ghost predicate Newest(db: Db, k: nat, id: Id) {
    forall j :: k < j < |db.otps| ==> !IsOtp(db.otps[j], id, Arrival)
  }

  ghost predicate ArrivalOk(db: Db, cur: Pc) {
    match cur
    case OtpIssuing(Arrival, id) => id in db.bookings && db.bookings[id].status == Confirmed
    case OtpMarking(Arrival, id, k, _) => Awaiting(db, id) ==> Newest(db, k, id)
    case OtpWriting(Arrival, id, k, _) => Awaiting(db, id) ==> Newest(db, k, id)
    case Done(OtpAccepted(Arrival, id, k, _)) => Newest(db, k, id)
    case _ => true
  }

  ghost predicate OtpSerialOk(db: Db, cur: Pc) {
    ExpiryOk(db) && UnusedOk(db, cur) && ArrivalOk(db, cur)
  }

  // The newest active OTP is the newest issued one as long as none has been used: older ones expire first.
  lemma LatestActiveIsNewest(db: Db, cur: Pc, id: Id)
    requires ExpiryOk(db) && UnusedOk(db, cur) && !cur.OtpWriting? && Awaiting(db, id)
    requires LatestActive(db.otps, id, Arrival, db.now).Some?
    ensures Newest(db, LatestActive(db.otps, id, Arrival, db.now).value, id)
  {
    var k := LatestActive(db.otps, id, Arrival, db.now).value;
    forall j | k < j < |db.otps| ensures !IsOtp(db.otps[j], id, Arrival) {
      assert !Active(db.otps[j], id, Arrival, db.now);
      assert db.otps[k].expiresAt <= db.otps[j].expiresAt;
    }
  }

  lemma ExpiryStaysOk(db: Db, w: Write)
    requires ExpiryOk(db)
    requires w.InsertOtp? ==> w.otp.expiresAt == db.now + OTP_TTL
    ensures ExpiryOk(Perform(db, w))
  {
  }

  lemma IssuedOtpsExpireInTime(db: Db, pc: Pc, c: Choice)
    ensures PlanOf(db, pc, c).write.InsertOtp? ==> PlanOf(db, pc, c).write.otp.expiresAt == db.now + OTP_TTL
    ensures PlanOf(db, pc, c).write.InsertOtp? ==> PlanOf(db, pc, c).write.otp.usedAt == None
    ensures PlanOf(db, pc, c).write.InsertOtp? ==>
              pc.OtpIssuing? && IsOtp(PlanOf(db, pc, c).write.otp, pc.id, pc.kind)
    ensures PlanOf(db, pc, c).write.MarkUsed? ==>
              pc.OtpMarking? && PlanOf(db, pc, c).write.index == pc.index
              && Outcome(db, PlanOf(db, pc, c)) == OtpWriting(pc.kind, pc.id, pc.index, pc.digest)
  {
  }

  // A booking that has an arrival OTP and is confirmed after a write was so before it.
  lemma AwaitedBefore(db: Db, w: Write, k: nat)
    requires DbOk(db) && WriteOk(db, w) && k < |db.otps| && db.otps[k].kind == Arrival
    requires Awaiting(Perform(db, w), db.otps[k].booking)
    ensures Awaiting(db, db.otps[k].booking)
  {
    DbGrows(db, w);
    assert OtpOk(db, db.otps[k]);
    assert Progressed(db.bookings[db.otps[k].booking], Perform(db, w).bookings[db.otps[k].booking]);
  }

  lemma UnusedAfterConfirming(db: Db, cur: Pc)
    requires DbOk(db) && PcOk(db, cur) && UnusedOk(db, cur) && cur.OtpWriting?
    ensures UnusedOk(Perform(db, PlanOtp(db, cur, Choice(0, true, "", NoFault)).write), Done(BadRequest))
  {
    hide EvidenceOk, UniqueColumns, ReviewsOk, RefundsOk, RowsOk, OtpsOk;
    var w := PlanOtp(db, cur, Choice(0, true, "", NoFault)).write;
    assert WriteOk(db, w) by { AcceptIsSound(db, cur, Choice(0, true, "", NoFault)); }
    forall k | 0 <= k < |db.otps| && db.otps[k].kind == Arrival && db.otps[k].usedAt.Some?
      ensures !Awaiting(Perform(db, w), db.otps[k].booking)
    {
      if Awaiting(Perform(db, w), db.otps[k].booking) {
        AwaitedBefore(db, w, k);
      }
      assert Awaiting(db, db.otps[k].booking) ==> w == ConfirmArrival(db.otps[k].booking);
    }
  }

  lemma UnusedAfterMarking(db: Db, cur: Pc)
    requires PcOk(db, cur) && UnusedOk(db, cur) && cur.OtpMarking?
    ensures UnusedOk(Perform(db, MarkUsed(cur.index)), OtpWriting(cur.kind, cur.id, cur.index, cur.digest))
  {
  }

  lemma UnusedAfterOther(db: Db, w: Write, cur: Pc, next: Pc)
    requires DbOk(db) && WriteOk(db, w) && UnusedOk(db, cur) && !cur.OtpWriting? && !w.MarkUsed?
    requires w.InsertOtp? ==> w.otp.usedAt == None
    ensures UnusedOk(Perform(db, w), next)
  {
    var after := Perform(db, w);
    forall k | 0 <= k < |after.otps| && after.otps[k].kind == Arrival && after.otps[k].usedAt.Some?
      ensures !Awaiting(after, after.otps[k].booking)
    {
      assert k < |db.otps| && after.otps[k] == db.otps[k];
      if Awaiting(after, after.otps[k].booking) {
        AwaitedBefore(db, w, k);
      }
    }
  }

  lemma UnusedStaysOk(db: Db, cur: Pc, c: Choice)
    requires c.fault == NoFault
    requires DbOk(db) && PcOk(db, cur) && c.newId !in db.issued && !cur.Done? && UnusedOk(db, cur)
    ensures UnusedOk(Perform(db, PlanOf(db, cur, c).write), Next(db, cur, c))
  {
    if cur.OtpWriting? {
      UnusedAfterConfirming(db, cur);
    } else {
      var plan := PlanOf(db, cur, c);
      PlanIsSound(db, cur, c);
      IssuedOtpsExpireInTime(db, cur, c);
      if plan.write.MarkUsed? {
        UnusedAfterMarking(db, cur);
      } else {
        UnusedAfterOther(db, plan.write, cur, Next(db, cur, c));
      }
    }
  }

  lemma ArrivalNextOk(db: Db, cur: Pc, c: Choice)
    requires c.fault == NoFault
    requires OtpSerialOk(db, cur) && !cur.Done?
    ensures ArrivalOk(Perform(db, PlanOf(db, cur, c).write), Next(db, cur, c))
  {
    hide Intended, ArrivalOk, OtpSerialOk, Perform, Succeeds;
    if cur.OtpIssuing? || cur.OtpStart? || cur.OtpFinding? || cur.OtpMarking? || cur.OtpWriting? {
      OtpPlan(db, cur, c);
      if cur.OtpFinding? {
        FindingNextOk(db, cur, c);
      } else if cur.OtpMarking? || cur.OtpWriting? {
        RedeemingNextOk(db, cur, c);
      } else {
        StartingNextOk(db, cur, c);
      }
    } else if cur.AssignStart? || cur.AssignWriting? {
      AssignPlan(db, cur, c);
      AssigningNextOk(db, cur);
    } else {
      OtherNextOk(db, cur, c);
    }
  }

  lemma StartingNextOk(db: Db, cur: Pc, c: Choice)
    requires cur.OtpIssuing? || cur.OtpStart?
    ensures ArrivalOk(Perform(db, PlanOtp(db, cur, c).write), Outcome(db, PlanOtp(db, cur, c)))
  {
  }

  lemma AssigningNextOk(db: Db, cur: Pc)
    requires cur.AssignStart? || cur.AssignWriting?
    ensures ArrivalOk(Perform(db, PlanAssign(db, cur).write), Outcome(db, PlanAssign(db, cur)))
  {
  }

  lemma FindingNextOk(db: Db, cur: Pc, c: Choice)
    requires OtpSerialOk(db, cur) && cur.OtpFinding?
    ensures ArrivalOk(Perform(db, PlanOtp(db, cur, c).write), Outcome(db, PlanOtp(db, cur, c)))
  {
    if LatestActive(db.otps, cur.id, Arrival, db.now).Some? && Awaiting(db, cur.id) {
      LatestActiveIsNewest(db, cur, cur.id);
    }
  }

  lemma RedeemingNextOk(db: Db, cur: Pc, c: Choice)
    requires OtpSerialOk(db, cur) && (cur.OtpMarking? || cur.OtpWriting?)
    ensures ArrivalOk(Perform(db, PlanOtp(db, cur, c).write), Outcome(db, PlanOtp(db, cur, c)))
  {
  }

  lemma OtherNextOk(db: Db, cur: Pc, c: Choice)
    requires !cur.OtpIssuing? && !cur.OtpStart? && !cur.OtpFinding? && !cur.OtpMarking? && !cur.OtpWriting? && !cur.Done?
    requires !cur.AssignStart? && !cur.AssignWriting?
    ensures ArrivalOk(Perform(db, PlanOf(db, cur, c).write), Next(db, cur, c))
  {
    hide Succeeds, Perform;
  }

  // An accepted arrival OTP stays the newest: a new one is issued to a confirmed booking only.
  lemma AcceptedStaysNewest(db: Db, cur: Pc, c: Choice, other: Pc)
    requires ArrivalOk(db, cur) && other.Done? && PcOk(db, other) && ArrivalOk(db, other)
    ensures ArrivalOk(Perform(db, PlanOf(db, cur, c).write), other)
  {
    IssuedOtpsExpireInTime(db, cur, c);
    WriteKeepsNewest(db, PlanOf(db, cur, c).write, other);
  }

  lemma WriteKeepsNewest(db: Db, w: Write, other: Pc)
    requires other.Done? && PcOk(db, other) && ArrivalOk(db, other)
    requires w.InsertOtp? && w.otp.kind == Arrival ==>
               w.otp.booking in db.bookings && db.bookings[w.otp.booking].status == Confirmed
    ensures ArrivalOk(Perform(db, w), other)
  {
  }

  // ------------------------------------------------------------------------------------------
  // Refunds
  // ------------------------------------------------------------------------------------------

  function RefundsOf(refunds: seq<Refund>, id: Id): seq<Refund> {
    if refunds == [] then
      []
    else
      RefundsOf(refunds[..|refunds| - 1], id) +
      if refunds[|refunds| - 1].booking == id then [refunds[|refunds| - 1]] else []
  }

  function TotalRefunded(refunds: seq<Refund>): int {
    if refunds == [] then 0 else TotalRefunded(refunds[..|refunds| - 1]) + refunds[|refunds| - 1].amount
  }

  function Recorded(b: Booking): int {
    if b.refundAmount.Some? then b.refundAmount.value else 0
  }

  predicate Is(refunds: seq<Refund>, amount: Option<int>, id: Option<Id>) {
    if id.Some? then
      |refunds| == 1 && amount == Some(refunds[0].amount) && refunds[0].id == id.value
    else
      refunds == []
  }

  // The refund columns of a booking: what is recorded is positive, and was refunded if anything was paid.
  predicate ColumnsOk(b: Booking, amount: Option<int>, refund: Option<Id>) {
    && (amount.Some? ==> amount.value > 0)
    && (b.payment.Some? && amount.Some? ==> refund.Some?)
    && (b.payment.None? ==> refund.None?)
  }

  // The gateway refunded exactly what a cancelled booking says, and for any other booking only what
  // the cancellation being served is about to write.
  ghost predicate Balanced(db: Db, cur: Pc, id: Id)
    requires id in db.bookings
  {
    var b, refunds := db.bookings[id], RefundsOf(db.refunds, id);
    if b.status == Cancelled then
      Is(refunds, b.refundAmount, b.refundId) && ColumnsOk(b, b.refundAmount, b.refundId)
    else if cur.CancelWriting? && cur.id == id then
      Is(refunds, cur.recorded, cur.refund)
    else
      refunds == []
  }

  predicate CancelOkHere(db: Db, cur: Pc) {
    match cur
    case CancelRefunding(id, _, _, amount) =>
      id in db.bookings && db.bookings[id].status == Confirmed && db.bookings[id].payment.Some? && amount > 0
    case CancelWriting(id, _, recorded, refund) =>
      && id in db.bookings && db.bookings[id].status in {PendingPayment, Confirmed}
      && ColumnsOk(db.bookings[id], recorded, refund)
    case _ => true
  }

  ghost predicate RefundSerialOk(db: Db, cur: Pc) {
    && (forall id :: id in db.bookings ==> Balanced(db, cur, id))
    && (forall i :: 0 <= i < |db.refunds| ==> db.refunds[i].booking in db.bookings)
    && CancelOkHere(db, cur)
  }

  lemma {:induction false} NoRefunds(refunds: seq<Refund>, id: Id)
    requires forall i :: 0 <= i < |refunds| ==> refunds[i].booking != id
    ensures RefundsOf(refunds, id) == []
  {
    if refunds == [] {
    } else {
      NoRefunds(refunds[..|refunds| - 1], id);
    }
  }

  lemma AnotherRefund(refunds: seq<Refund>, r: Refund, id: Id)
    ensures RefundsOf(refunds + [r], id) == RefundsOf(refunds, id) + if r.booking == id then [r] else []
  {
    assert (refunds + [r])[..|refunds|] == refunds;
  }

  lemma RefundedIsBalanced(db: Db, cur: Pc, newId: Id, id: Id)
    requires id in db.bookings && cur.CancelRefunding? && CancelOkHere(db, cur) && Balanced(db, cur, id)
    ensures Balanced(db.(refunds := db.refunds + [Refund(cur.id, cur.payment, cur.amount, newId)]),
                     CancelWriting(cur.id, cur.who, Some(cur.amount), Some(newId)), id)
  {
    AnotherRefund(db.refunds, Refund(cur.id, cur.payment, cur.amount, newId), id);
  }

  lemma RefundingKeepsBalance(db: Db, cur: Pc, c: Choice)
    requires RefundSerialOk(db, cur) && cur.CancelRefunding?
    ensures RefundSerialOk(Perform(db, PlanCancel(db, cur, c).write), Outcome(db, PlanCancel(db, cur, c)))
  {
    var refunds := db.refunds + [Refund(cur.id, cur.payment, cur.amount, c.newId)];
    var next := CancelWriting(cur.id, cur.who, Some(cur.amount), Some(c.newId));
    forall id | id in db.bookings
      ensures Balanced(db.(refunds := refunds), next, id) && Balanced(db, Done(BadRequest), id)
    {
      assert Balanced(db, cur, id);
      RefundedIsBalanced(db, cur, c.newId, id);
    }
    IgnoresIssued(db.(refunds := refunds), next, db.issued + {c.newId});
  }

  lemma IgnoresIssued(db: Db, cur: Pc, issued: set<Id>)
    ensures RefundSerialOk(db.(issued := issued), cur) <==> RefundSerialOk(db, cur)
  {
    forall id | id in db.bookings ensures Balanced(db.(issued := issued), cur, id) <==> Balanced(db, cur, id) {}
  }

  lemma CancelledIsBalanced(db: Db, cur: Pc, id: Id)
    requires id in db.bookings && cur.CancelWriting? && CancelOkHere(db, cur) && Balanced(db, cur, id)
    ensures Balanced(Perform(db, Cancel(cur.id, cur.who, cur.recorded, cur.refund)), Done(CancelOk(cur.id)), id)
  {
  }

  lemma CancellingKeepsBalance(db: Db, cur: Pc)
    requires RefundSerialOk(db, cur) && cur.CancelWriting?
    ensures RefundSerialOk(Perform(db, Cancel(cur.id, cur.who, cur.recorded, cur.refund)), Done(CancelOk(cur.id)))
  {
    forall id | id in db.bookings
      ensures Balanced(Perform(db, Cancel(cur.id, cur.who, cur.recorded, cur.refund)), Done(CancelOk(cur.id)), id)
    {
      assert Balanced(db, cur, id);
      CancelledIsBalanced(db, cur, id);
    }
  }

  lemma StartingIsOk(db: Db, cur: Pc, c: Choice)
    requires DbOk(db) && cur.CancelStart?
    ensures var plan := PlanCancel(db, cur, c);
            && plan.write == NoWrite && plan.ok == plan.fail && CancelOkHere(db, plan.ok)
            && (plan.ok.CancelWriting? ==> plan.ok.refund == None)
  {
    if cur.id in db.bookings {
      RefundIsWithinAmount(db.bookings[cur.id].amount, db.bookings[cur.id].slotStart, db.now);
    }
  }

  lemma StartingKeepsBalance(db: Db, cur: Pc, next: Pc)
    requires RefundSerialOk(db, cur) && cur.CancelStart? && CancelOkHere(db, next)
    requires next.CancelWriting? ==> next.refund == None
    ensures RefundSerialOk(db, next)
  {
    forall id | id in db.bookings ensures Balanced(db, next, id) {
      assert Balanced(db, cur, id);
    }
  }

  lemma RefundsUntouched(db: Db, w: Write)
    requires !w.RefundPayment?
    ensures Perform(db, w).refunds == db.refunds
  {
  }

  // Requests other than cancellations touch neither refunds nor the refund columns.
  lemma OtherWritesKeepBalance(db: Db, w: Write, cur: Pc, next: Pc)
    requires DbOk(db) && WriteOk(db, w) && RefundSerialOk(db, cur)
    requires !cur.CancelWriting? && !next.CancelWriting? && !next.CancelRefunding?
    requires !w.Cancel? && !w.RefundPayment?
    ensures RefundSerialOk(Perform(db, w), next)
  {
    DbGrows(db, w);
    RefundsUntouched(db, w);
    var after := Perform(db, w);
    forall id | id in after.bookings ensures Balanced(after, next, id) {
      if id in db.bookings {
        assert Balanced(db, cur, id);
        assert after.bookings[id].status == Cancelled ==> after.bookings[id] == db.bookings[id] by {
          CancelledBefore(db, w, id);
        }
      } else {
        NoRefunds(db.refunds, id);
        NewBookingsArePending(db, w, id);
      }
    }
  }

  lemma CancelledBefore(db: Db, w: Write, id: Id)
    requires id in db.bookings && !w.Cancel? && WriteOk(db, w)
    ensures Perform(db, w).bookings[id].status == Cancelled ==> Perform(db, w).bookings[id] == db.bookings[id]
  {
  }

  lemma NewBookingsArePending(db: Db, w: Write, id: Id)
    requires id !in db.bookings && WriteOk(db, w) && id in Perform(db, w).bookings
    ensures Perform(db, w).bookings[id].status == PendingPayment
  {
  }

  lemma OtherPlans(db: Db, cur: Pc, c: Choice)
    requires c.fault == NoFault
    requires !cur.CancelStart? && !cur.CancelRefunding? && !cur.CancelWriting? && !cur.Done?
    ensures !PlanOf(db, cur, c).write.Cancel? && !PlanOf(db, cur, c).write.RefundPayment?
    ensures !Next(db, cur, c).CancelWriting? && !Next(db, cur, c).CancelRefunding?
  {
  }

  lemma RefundsStayBalanced(db: Db, cur: Pc, c: Choice)
    requires c.fault == NoFault
    requires DbOk(db) && PcOk(db, cur) && RefundSerialOk(db, cur) && c.newId !in db.issued && !cur.Done?
    ensures RefundSerialOk(Perform(db, PlanOf(db, cur, c).write), Next(db, cur, c))
  {
    hide DbOk, PcOk, RefundSerialOk, Perform, Succeeds, Intended;
    if cur.CancelStart? || cur.CancelRefunding? || cur.CancelWriting? {
      CancelPlan(db, cur, c);
      CancelsStayBalanced(db, cur, c);
    } else {
      OtherPlans(db, cur, c);
      PlanIsSound(db, cur, c);
      OtherWritesKeepBalance(db, PlanOf(db, cur, c).write, cur, Next(db, cur, c));
    }
  }

  lemma CancelsStayBalanced(db: Db, cur: Pc, c: Choice)
    requires DbOk(db) && RefundSerialOk(db, cur) && (cur.CancelStart? || cur.CancelRefunding? || cur.CancelWriting?)
    ensures RefundSerialOk(Perform(db, PlanCancel(db, cur, c).write), Outcome(db, PlanCancel(db, cur, c)))
  {
    hide DbOk;
    if cur.CancelStart? {
      StartingIsOk(db, cur, c);
      StartingKeepsBalance(db, cur, PlanCancel(db, cur, c).ok);
    } else if cur.CancelRefunding? {
      RefundingKeepsBalance(db, cur, c);
    } else {
      CancellingKeepsBalance(db, cur);
    }
  }

  // ------------------------------------------------------------------------------------------
  // Serial runs
  // ------------------------------------------------------------------------------------------

  ghost predicate SerialInv(s: State, cur: Pc) {
    && Inv(s) && IsServing(s, cur) && OtpSerialOk(s.db, cur) && RefundSerialOk(s.db, cur)
    && forall r :: r in s.requests && s.requests[r].Done? ==> ArrivalOk(s.db, s.requests[r])
  }

  lemma AdvanceKeepsSerial(s: State, cur: Pc, r: Id, c: Choice)
    requires SerialInv(s, cur) && Enabled(s, Advance(r, c)) && c.fault == NoFault
    ensures SerialInv(Step(s, Advance(r, c)), Next(s.db, cur, c))
  {
    assert s.requests[r] == cur;
    var after := Perform(s.db, PlanOf(s.db, cur, c).write);
    AdvanceKeepsInv(s, r, c);
    assert OtpSerialOk(after, Next(s.db, cur, c)) by {
      IssuedOtpsExpireInTime(s.db, cur, c);
      ExpiryStaysOk(s.db, PlanOf(s.db, cur, c).write);
      UnusedStaysOk(s.db, cur, c);
      ArrivalNextOk(s.db, cur, c);
    }
    assert RefundSerialOk(after, Next(s.db, cur, c)) by {
      RefundsStayBalanced(s.db, cur, c);
    }
    forall q | q in s.requests && q != r && s.requests[q].Done? ensures ArrivalOk(after, s.requests[q]) {
      AcceptedStaysNewest(s.db, cur, c, s.requests[q]);
    }
    ServingAdvances(s, cur, r, after, Next(s.db, cur, c));
  }

  lemma ServingAdvances(s: State, cur: Pc, r: Id, after: Db, next: Pc)
    requires IsServing(s, cur) && r in s.requests && !s.requests[r].Done?
    ensures IsServing(State(after, s.requests[r := next]), next)
  {
    assert s.requests[r := next][r] == next;
  }

  lemma StartKeepsRefunds(db: Db, cur: Pc, entry: Pc)
    requires RefundSerialOk(db, cur) && cur.Done? && IsEntry(entry)
    ensures RefundSerialOk(db, entry)
  {
    forall id | id in db.bookings ensures Balanced(db, entry, id) {
      assert Balanced(db, cur, id);
    }
  }

  lemma StartKeepsOtps(db: Db, cur: Pc, entry: Pc)
    requires OtpSerialOk(db, cur) && cur.Done? && IsEntry(entry)
    ensures OtpSerialOk(db, entry)
  {
  }

  lemma StartIsServing(s: State, cur: Pc, r: Id, entry: Pc)
    requires Idle(s) && r !in s.requests
    ensures IsServing(s.(requests := s.requests[r := entry]), entry)
  {
    assert s.requests[r := entry][r] == entry;
  }

  lemma StartKeepsSerial(s: State, cur: Pc, r: Id, entry: Pc)
    requires SerialInv(s, cur) && Idle(s) && Enabled(s, Start(r, entry))
    ensures SerialInv(Step(s, Start(r, entry)), entry)
  {
    var t := s.(requests := s.requests[r := entry]);
    assert Inv(t) by { StartKeepsInv(s, r, entry); }
    assert IsServing(t, entry) by { StartIsServing(s, cur, r, entry); }
    assert OtpSerialOk(t.db, entry) by { StartKeepsOtps(s.db, cur, entry); }
    assert RefundSerialOk(t.db, entry) by { StartKeepsRefunds(s.db, cur, entry); }
  }

  lemma TickKeepsOtps(db: Db, later: Db, pc: Pc)
    requires later == db.(now := later.now) && db.now <= later.now
    ensures OtpSerialOk(db, pc) ==> OtpSerialOk(later, pc)
    ensures ArrivalOk(db, pc) ==> ArrivalOk(later, pc)
  {
    assert forall k :: 0 <= k < |later.otps| ==>
                         Awaiting(later, later.otps[k].booking) == Awaiting(db, later.otps[k].booking);
  }

  lemma TickKeepsRefunds(db: Db, later: Db, cur: Pc)
    requires later == db.(now := later.now) && RefundSerialOk(db, cur)
    ensures RefundSerialOk(later, cur)
  {
    forall id | id in later.bookings ensures Balanced(later, cur, id) {
      assert Balanced(db, cur, id);
    }
  }

  lemma TickKeepsSerial(s: State, cur: Pc, elapsed: nat)
    requires SerialInv(s, cur)
    ensures SerialInv(s.(db := s.db.(now := s.db.now + elapsed)), cur)
  {
    var t := s.(db := s.db.(now := s.db.now + elapsed));
    assert Inv(t) by { TickKeepsInv(s, elapsed); }
    assert IsServing(t, cur) by { assert t.requests == s.requests; }
    assert OtpSerialOk(t.db, cur) by { TickKeepsOtps(s.db, t.db, cur); }
    assert RefundSerialOk(t.db, cur) by { TickKeepsRefunds(s.db, t.db, cur); }
    forall r | r in t.requests && t.requests[r].Done? ensures ArrivalOk(t.db, t.requests[r]) {
      TickKeepsOtps(s.db, t.db, t.requests[r]);
    }
  }

  lemma StepKeepsSerial(s: State, cur: Pc, a: Action) returns (next: Pc)
    requires SerialInv(s, cur) && Enabled(s, a) && (a.Start? ==> Idle(s)) && Faultless(a)
    ensures SerialInv(Step(s, a), next)
  {
    match a
    case Start(r, entry) =>
      StartKeepsSerial(s, cur, r, entry);
      next := entry;
    case Advance(r, c) =>
      AdvanceKeepsSerial(s, cur, r, c);
      next := Next(s.db, cur, c);
    case Tick(elapsed) =>
      next := cur;
      assert SerialInv(Step(s, Tick(elapsed)), next) by {
        TickKeepsSerial(s, cur, elapsed);
        TickIs(s, elapsed);
      }
  }

  lemma {:induction false} SerialRunKeepsInv(acts: seq<Action>) returns (cur: Pc)
    requires IsRun(Init, acts) && IsSerial(Init, acts)
    ensures SerialInv(After(Init, acts), cur)
  {
    if acts == [] {
      InitOk();
      cur := Done(HookOk);
    } else {
      var front := acts[..|acts| - 1];
      cur := SerialRunKeepsInv(front);
      cur := StepKeepsSerial(After(Init, front), cur, acts[|acts| - 1]);
    }
  }

  // Whenever an arrival was confirmed, the OTP that was accepted is the newest arrival OTP of the
  // booking, however often the service person was reassigned, and its digest is the submitted one.
  lemma OnlyNewestArrivalOtpWorks(acts: seq<Action>, r: Id)
    requires IsRun(Init, acts) && IsSerial(Init, acts)
    requires r in After(Init, acts).requests
    requires After(Init, acts).requests[r].Done? && After(Init, acts).requests[r].reply.OtpAccepted?
    requires After(Init, acts).requests[r].reply.kind == Arrival
    ensures var db := After(Init, acts).db;
            var OtpAccepted(_, id, k, digest) := After(Init, acts).requests[r].reply;
            && OtpAt(db, k, id, Arrival) && db.otps[k].digest == digest && db.otps[k].usedAt.Some?
            && Newest(db, k, id)
  {
    var cur := SerialRunKeepsInv(acts);
    var s := After(Init, acts);
    assert PcOk(s.db, s.requests[r]) && ArrivalOk(s.db, s.requests[r]);
  }

  // Between requests, a booking has at most one gateway refund, and only if it is cancelled and was
  // paid; a cancelled booking that was paid records exactly what was refunded.
  lemma RefundsAreConserved(acts: seq<Action>, id: Id)
    requires IsRun(Init, acts) && IsSerial(Init, acts) && Idle(After(Init, acts))
    requires id in After(Init, acts).db.bookings
    ensures var db := After(Init, acts).db;
            var b, refunds := db.bookings[id], RefundsOf(db.refunds, id);
            && |refunds| <= 1
            && (refunds != [] ==> b.status == Cancelled && b.payment.Some? && b.refundId == Some(refunds[0].id))
            && TotalRefunded(refunds) <= b.amount
            && (b.status == Cancelled && b.payment.Some? ==> TotalRefunded(refunds) == Recorded(b))
  {
    var cur := SerialRunKeepsInv(acts);
    var db := After(Init, acts).db;
    assert cur.Done? && Balanced(db, cur, id);
    var refunds := RefundsOf(db.refunds, id);
    TotalOfOne(refunds);
    if |refunds| == 1 {
      RefundsAreOfTheirBooking(db.refunds, id);
      assert RefundOk(db, refunds[0]);
    }
  }

  lemma TotalOfOne(refunds: seq<Refund>)
    ensures |refunds| == 0 ==> TotalRefunded(refunds) == 0
    ensures |refunds| == 1 ==> TotalRefunded(refunds) == refunds[0].amount
  {
    if |refunds| == 1 {
      assert refunds[..0] == [];
    }
  }

  lemma {:induction false} RefundsAreOfTheirBooking(refunds: seq<Refund>, id: Id)
    ensures forall r :: r in RefundsOf(refunds, id) ==> r.booking == id && r in refunds
  {
    if refunds == [] {
    } else {
      RefundsAreOfTheirBooking(refunds[..|refunds| - 1], id);
    }
  }

  // ------------------------------------------------------------------------------------------
  // Why serial
  // ------------------------------------------------------------------------------------------

  lemma ProviderCancelChecks(db: Db, id: Id, c: Choice)
    requires id in db.bookings && db.bookings[id].status == Confirmed && db.bookings[id].payment.Some?
    ensures var b := db.bookings[id];
            Move(Spot(db, CancelStart(id, ByProvider, b.provider)), c)
            == Spot(db, CancelRefunding(id, ByProvider, b.payment.value, b.amount))
  {
  }

  lemma GatewayRefunds(db: Db, id: Id, payment: Id, amount: int, newId: Id)
    ensures Move(Spot(db, CancelRefunding(id, ByProvider, payment, amount)), Choice(newId, true, "", NoFault))
            == Spot(Perform(db, RefundPayment(Refund(id, payment, amount, newId))),
                    CancelWriting(id, ByProvider, Some(amount), Some(newId)))
  {
  }

  lemma BothCheckFirst(s: State, id: Id, p: Id, q: Id, cx: Choice, cy: Choice) returns (acts: seq<Action>)
    requires id in s.db.bookings && s.db.bookings[id].status == Confirmed && s.db.bookings[id].payment.Some?
    requires p !in s.requests && q !in s.requests && p != q
    requires cx.newId !in s.db.issued && cy.newId !in s.db.issued
    ensures IsRun(s, acts)
    ensures var refunding := CancelRefunding(id, ByProvider, s.db.bookings[id].payment.value, s.db.bookings[id].amount);
            After(s, acts) == State(s.db, s.requests[p := refunding][q := refunding])
  {
    var b := s.db.bookings[id];
    var entry := CancelStart(id, ByProvider, b.provider);
    var refunding := CancelRefunding(id, ByProvider, b.payment.value, b.amount);
    ProviderCancelChecks(s.db, id, cx);
    ProviderCancelChecks(s.db, id, cy);
    acts := Serving(p, entry, [cx]);
    ServingCheck(s, p, entry, cx, refunding);
    RunExtends(s, acts, Start(q, entry));
    acts := acts + [Start(q, entry)];
    StepIsMove(After(s, acts), q, cy);
    RunExtends(s, acts, Advance(q, cy));
    acts := acts + [Advance(q, cy)];
  }

  // Two provider cancellations of any paid booking whose steps alternate refund it twice, in full.
  lemma RacingCancelsRefundTwice(s: State, id: Id, p: Id, q: Id, x: Id, y: Id) returns (acts: seq<Action>)
    requires id in s.db.bookings && s.db.bookings[id].status == Confirmed && s.db.bookings[id].payment.Some?
    requires p !in s.requests && q !in s.requests && p != q
    requires x !in s.db.issued && y !in s.db.issued && x != y
    ensures IsRun(s, acts)
    ensures TotalRefunded(RefundsOf(After(s, acts).db.refunds, id))
            == TotalRefunded(RefundsOf(s.db.refunds, id)) + 2 * s.db.bookings[id].amount
  {
    var payment, amount := s.db.bookings[id].payment.value, s.db.bookings[id].amount;
    acts := BothCheckFirst(s, id, p, q, Choice(x, true, "", NoFault), Choice(y, true, "", NoFault));
    acts := GatewayStep(s, acts, p, id, payment, amount, x);
    acts := GatewayStep(s, acts, q, id, payment, amount, y);
    TotalGrows(s.db.refunds, Refund(id, payment, amount, x), id);
    TotalGrows(s.db.refunds + [Refund(id, payment, amount, x)], Refund(id, payment, amount, y), id);
  }

  lemma GatewayStep(s: State, acts: seq<Action>, r: Id, id: Id, payment: Id, amount: int, newId: Id)
    returns (more: seq<Action>)
    requires IsRun(s, acts) && r in After(s, acts).requests && newId !in After(s, acts).db.issued
    requires After(s, acts).requests[r] == CancelRefunding(id, ByProvider, payment, amount)
    ensures IsRun(s, more)
    ensures After(s, more).db.refunds == After(s, acts).db.refunds + [Refund(id, payment, amount, newId)]
    ensures After(s, more).db.issued == After(s, acts).db.issued + {newId}
    ensures forall q :: q in After(s, acts).requests && q != r ==>
              q in After(s, more).requests && After(s, more).requests[q] == After(s, acts).requests[q]
  {
    var c := Choice(newId, true, "", NoFault);
    GatewayRefunds(After(s, acts).db, id, payment, amount, newId);
    StepIsMove(After(s, acts), r, c);
    RunExtends(s, acts, Advance(r, c));
    more := acts + [Advance(r, c)];
  }

  lemma ServingCheck(s: State, p: Id, entry: Pc, c: Choice, next: Pc)
    requires p !in s.requests && IsEntry(entry) && c.newId !in s.db.issued
    requires Move(Spot(s.db, entry), c) == Spot(s.db, next)
    ensures IsRun(s, Serving(p, entry, [c])) && After(s, Serving(p, entry, [c])) == State(s.db, s.requests[p := next])
  {
    assert [] + [c] == [c];
    ServeExtends(Spot(s.db, entry), [], c);
    ServingIsARun(s, p, entry, [c]);
  }

  lemma TotalGrows(refunds: seq<Refund>, r: Refund, id: Id)
    requires r.booking == id
    ensures TotalRefunded(RefundsOf(refunds + [r], id)) == TotalRefunded(RefundsOf(refunds, id)) + r.amount
  {
    AnotherRefund(refunds, r, id);
    assert (RefundsOf(refunds, id) + [r])[..|RefundsOf(refunds, id)|] == RefundsOf(refunds, id);
  }

  // ------------------------------------------------------------------------------------------
  // Prompt runs: a request takes no time
  // ------------------------------------------------------------------------------------------

  ghost predicate IsPrompt(s: State, acts: seq<Action>)
    requires IsRun(s, acts)
  {
    acts == [] ||
    (IsPrompt(s, acts[..|acts| - 1]) && (acts[|acts| - 1].Tick? ==> Idle(After(s, acts[..|acts| - 1]))))
  }

  predicate Live(db: Db, k: nat) {
    k < |db.otps| ==> db.otps[k].expiresAt > db.now
  }

  predicate RedeemsLive(db: Db, pc: Pc) {
    pc.OtpMarking? || pc.OtpWriting? ==> Live(db, pc.index)
  }

  // The booking was completed before its completion OTP expired.
  ghost predicate CompletedInTime(db: Db, id: Id)
    requires id in db.bookings
  {
    exists k: nat :: OtpAt(db, k, id, Completion) && db.bookings[id].completedAt.Some? &&
                db.bookings[id].completedAt.value < db.otps[k].expiresAt
  }

  ghost predicate CompletionsOk(db: Db) {
    forall id :: id in db.bookings && db.bookings[id].status == Completed ==> CompletedInTime(db, id)
  }

  lemma OtpNextRedeemsLive(db: Db, pc: Pc, c: Choice)
    requires RedeemsLive(db, pc)
    requires pc.OtpIssuing? || pc.OtpStart? || pc.OtpFinding? || pc.OtpMarking? || pc.OtpWriting?
    ensures RedeemsLive(Perform(db, PlanOf(db, pc, c).write), Next(db, pc, c))
  {
    hide Intended;
    OtpPlan(db, pc, c);
  }

  // Only a request that redeems an OTP gets on to redeeming one.
  lemma OthersRedeemNothing(db: Db, pc: Pc, c: Choice)
    requires !pc.OtpIssuing? && !pc.OtpStart? && !pc.OtpFinding? && !pc.OtpMarking? && !pc.OtpWriting? && !pc.Done?
    ensures !Next(db, pc, c).OtpMarking? && !Next(db, pc, c).OtpWriting?
    ensures Next(db, pc, c).Done? ==> !Next(db, pc, c).reply.OtpAccepted?
  {
    hide Succeeds;
  }

  lemma NextRedeemsLive(db: Db, pc: Pc, c: Choice)
    requires RedeemsLive(db, pc) && !pc.Done?
    ensures RedeemsLive(Perform(db, PlanOf(db, pc, c).write), Next(db, pc, c))
  {
    hide PlanOf;
    if pc.OtpIssuing? || pc.OtpStart? || pc.OtpFinding? || pc.OtpMarking? || pc.OtpWriting? {
      OtpNextRedeemsLive(db, pc, c);
    } else {
      OthersRedeemNothing(db, pc, c);
    }
  }

  lemma WriteKeepsLive(db: Db, w: Write, pc: Pc)
    requires DbOk(db) && WriteOk(db, w) && PcOk(db, pc) && RedeemsLive(db, pc)
    ensures RedeemsLive(Perform(db, w), pc)
  {
    hide OtpsOk, EvidenceOk, UniqueColumns, ReviewsOk, RefundsOk, RowsOk;
    hide Progressed;
    DbGrows(db, w);
    if pc.OtpMarking? || pc.OtpWriting? {
      assert UsedStays(db.otps[pc.index], Perform(db, w).otps[pc.index]);
    }
  }

  lemma CompletedStaysInTime(db: Db, later: Db, id: Id)
    requires Grown(db, later) && id in db.bookings && CompletedInTime(db, id)
    requires db.bookings[id].status == Completed
    ensures CompletedInTime(later, id)
  {
    var k: nat :| OtpAt(db, k, id, Completion) && db.bookings[id].completedAt.Some? &&
             db.bookings[id].completedAt.value < db.otps[k].expiresAt;
    assert UsedStays(db.otps[k], later.otps[k]);
    assert Progressed(db.bookings[id], later.bookings[id]);
    assert OtpAt(later, k, id, Completion);
  }

  lemma CompletingInTime(db: Db, w: Write, id: Id, k: nat)
    requires DbOk(db) && WriteOk(db, w)
    requires w == Complete(id) && OtpAt(db, k, id, Completion) && Live(db, k)
    requires id in db.bookings && db.bookings[id].status == PendingCompletionVerification
    ensures CompletedInTime(Perform(db, w), id)
  {
    assert OtpAt(Perform(db, w), k, id, Completion);
  }

  lemma CompletedByUpdate(db: Db, w: Write, id: Id)
    requires id in Perform(db, w).bookings && Perform(db, w).bookings[id].status == Completed
    requires w.InsertBooking? ==> w.row.status == PendingPayment
    ensures (id in db.bookings && db.bookings[id].status == Completed) ||
            (w == Complete(id) && id in db.bookings && db.bookings[id].status == PendingCompletionVerification)
  {
  }

  lemma CompletionsStayOk(db: Db, pc: Pc, c: Choice)
    requires DbOk(db) && PcOk(db, pc) && RedeemsLive(db, pc) && CompletionsOk(db) && c.newId !in db.issued
    ensures CompletionsOk(Perform(db, PlanOf(db, pc, c).write))
  {
    var w := PlanOf(db, pc, c).write;
    var after := Perform(db, w);
    PlanIsSound(db, pc, c);
    DbGrows(db, w);
    forall id | id in after.bookings && after.bookings[id].status == Completed ensures CompletedInTime(after, id) {
      CompletedByUpdate(db, w, id);
      if db.bookings[id].status == Completed {
        CompletedStaysInTime(db, after, id);
      } else {
        CompleterHoldsOtp(db, pc, c);
        CompletingInTime(db, w, id, pc.index);
      }
    }
  }

  lemma CompleterHoldsOtp(db: Db, pc: Pc, c: Choice)
    requires PcOk(db, pc) && PlanOf(db, pc, c).write.Complete?
    ensures pc.OtpWriting? && OtpAt(db, pc.index, PlanOf(db, pc, c).write.id, Completion)
  {
  }

  lemma {:induction false} PromptRunKeeps(acts: seq<Action>)
    requires IsRun(Init, acts) && IsPrompt(Init, acts)
    ensures CompletionsOk(After(Init, acts).db)
    ensures forall r :: r in After(Init, acts).requests ==> RedeemsLive(After(Init, acts).db, After(Init, acts).requests[r])
  {
    if acts == [] {
    } else {
      var front, a := acts[..|acts| - 1], acts[|acts| - 1];
      var s := After(Init, front);
      PromptRunKeeps(front);
      InitOk();
      RunKeepsInv(Init, front);
      match a
      case Start(r, entry) =>
      case Tick(elapsed) =>
        var later := After(Init, acts).db;
        forall id | id in later.bookings && later.bookings[id].status == Completed ensures CompletedInTime(later, id) {
          assert CompletedInTime(s.db, id);
          StepGrows(s, a);
          CompletedStaysInTime(s.db, later, id);
        }
      case Advance(r, c) =>
        CompletionsStayOk(s.db, s.requests[r], c);
        NextRedeemsLive(s.db, s.requests[r], c);
        PlanIsSound(s.db, s.requests[r], c);
        forall q | q in s.requests && q != r ensures RedeemsLive(After(Init, acts).db, s.requests[q]) {
          WriteKeepsLive(s.db, PlanOf(s.db, s.requests[r], c).write, s.requests[q]);
        }
    }
  }

  // If requests take no time, every completed booking was completed before its completion OTP expired.
  lemma CompletionBeforeExpiry(acts: seq<Action>, id: Id)
    requires IsRun(Init, acts) && IsPrompt(Init, acts)
    requires id in After(Init, acts).db.bookings && After(Init, acts).db.bookings[id].status == Completed
    ensures CompletedInTime(After(Init, acts).db, id)
  {
    PromptRunKeeps(acts);
  }
}
