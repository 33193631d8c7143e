/** The invariant of the booking machine, kept by every step of every interleaving. */
module BookingInvariant {
  import opened Common
  import opened BookingTypes
  import opened BookingStore
  import opened BookingProtocol

  // ------------------------------------------------------------------------------------------
  // The database
  // ------------------------------------------------------------------------------------------

  predicate IsOtp(o: Otp, id: Id, kind: OtpKind) {
    o.booking == id && o.kind == kind
  }

  ghost predicate UsedOtp(db: Db, id: Id, kind: OtpKind) {
    exists k :: 0 <= k < |db.otps| && IsOtp(db.otps[k], id, kind) && db.otps[k].usedAt.Some?
  }

  ghost predicate HasOtp(db: Db, id: Id, kind: OtpKind) {
    exists k :: 0 <= k < |db.otps| && IsOtp(db.otps[k], id, kind)
  }

  const SERVED := {ArrivalConfirmed, PendingCompletionVerification, Completed}
  const HANDED_OVER := {PendingCompletionVerification, Completed}

  ghost predicate Evidenced(db: Db, id: Id)
    requires id in db.bookings
  {
    && (db.bookings[id].status in SERVED ==> UsedOtp(db, id, Arrival))
    && (db.bookings[id].status == Completed ==> UsedOtp(db, id, Completion))
  }

  ghost predicate RowsOk(db: Db) {
    forall id :: id in db.bookings ==>
                   RowOk(db.bookings[id]) && id in db.issued && db.bookings[id].order.value in db.issued
  }

  ghost predicate EvidenceOk(db: Db) {
    forall id :: id in db.bookings ==> Evidenced(db, id)
  }

  // An OTP belongs to a booking that has reached the point where that kind is issued.
  predicate OtpOk(db: Db, o: Otp) {
    && o.booking in db.bookings
    && (o.kind == Arrival ==> db.bookings[o.booking].person.Some?)
    && (o.kind == Completion ==> db.bookings[o.booking].status in HANDED_OVER)
  }

  ghost predicate OtpsOk(db: Db) {
    && (forall k :: 0 <= k < |db.otps| ==> OtpOk(db, db.otps[k]))
    && (forall j, k :: 0 <= j < k < |db.otps| && db.otps[j].kind == Completion && db.otps[k].kind == Completion ==>
                         db.otps[j].booking != db.otps[k].booking)
  }

  ghost predicate OrdersUnique(bookings: map<Id, Booking>) {
    forall x, y :: x in bookings && y in bookings && x != y ==> bookings[x].order != bookings[y].order
  }

  ghost predicate KeysUnique(bookings: map<Id, Booking>) {
    forall x, y :: x in bookings && y in bookings && x != y && bookings[x].key.Some? ==>
                     bookings[x].key != bookings[y].key
  }

  ghost predicate UniqueColumns(bookings: map<Id, Booking>) {
    OrdersUnique(bookings) && KeysUnique(bookings)
  }

  ghost predicate ReviewsOk(db: Db) {
    && (forall i :: 0 <= i < |db.reviews| ==>
                      db.reviews[i].booking in db.bookings && db.bookings[db.reviews[i].booking].status == Completed)
    && (forall i, j :: 0 <= i < j < |db.reviews| ==> db.reviews[i].booking != db.reviews[j].booking)
  }

  predicate RefundOk(db: Db, r: Refund) {
    && r.booking in db.bookings
    && db.bookings[r.booking].payment == Some(r.payment)
    && 0 < r.amount <= db.bookings[r.booking].amount
  }

  ghost predicate RefundsOk(db: Db) {
    forall i :: 0 <= i < |db.refunds| ==> RefundOk(db, db.refunds[i])
  }

  ghost predicate DbOk(db: Db) {
    && RowsOk(db) && EvidenceOk(db) && OtpsOk(db) && UniqueColumns(db.bookings) && ReviewsOk(db) && RefundsOk(db)
  }

  lemma OrdersPart(db: Db)
    requires DbOk(db)
    ensures OrdersUnique(db.bookings)
  {
  }

  // ------------------------------------------------------------------------------------------
  // Writes
  // ------------------------------------------------------------------------------------------

  // What a request has established before it issues a write.
  ghost predicate WriteOk(db: Db, w: Write) {
    match w
    case InsertBooking(id, row) =>
      && id !in db.bookings && RowOk(row) && row.status == PendingPayment && row.order.value in db.issued
    case ConfirmArrival(id) => UsedOtp(db, id, Arrival)
    case Complete(id) => UsedOtp(db, id, Completion)
    case InsertOtp(otp) => OtpOk(db, otp) && (otp.kind == Completion ==> !HasOtp(db, otp.booking, Completion))
    case InsertReview(review) => review.booking in db.bookings && db.bookings[review.booking].status == Completed
    case RefundPayment(refund) => RefundOk(db, refund)
    case _ => true
  }

  lemma DbGrows(db: Db, w: Write)
    requires DbOk(db) && WriteOk(db, w)
    ensures Grown(db, Perform(db, w))
  {
    WriteGrows(db, w);
  }

  lemma UsedOtpStays(db: Db, later: Db, id: Id, kind: OtpKind)
    requires Grown(db, later) && UsedOtp(db, id, kind)
    ensures UsedOtp(later, id, kind)
  {
    var k :| 0 <= k < |db.otps| && IsOtp(db.otps[k], id, kind) && db.otps[k].usedAt.Some?;
    assert UsedStays(db.otps[k], later.otps[k]);
  }

  lemma UpdatedIsOk(b: Booking, w: Write, now: int)
    requires IsUpdate(w) && b.status in Guard(w) && RowOk(b) && (w.ConfirmArrival? ==> b.person.Some?)
    ensures RowOk(Updated(b, w, now)) && Updated(b, w, now).order == b.order
  {
  }

  lemma RowsStayOk(db: Db, w: Write)
    requires DbOk(db) && WriteOk(db, w)
    ensures RowsOk(Perform(db, w))
  {
    hide OtpsOk, EvidenceOk, UniqueColumns, ReviewsOk, RefundsOk, Updated;
    if Succeeds(db, w) && IsUpdate(w) {
      if w.ConfirmArrival? {
        ArrivalOtpMeansPerson(db, w.id);
      }
      UpdatedIsOk(db.bookings[w.id], w, db.now);
    }
  }

  lemma ArrivalOtpMeansPerson(db: Db, id: Id)
    requires DbOk(db) && UsedOtp(db, id, Arrival)
    ensures id in db.bookings && db.bookings[id].person.Some?
  {
    var k :| 0 <= k < |db.otps| && IsOtp(db.otps[k], id, Arrival) && db.otps[k].usedAt.Some?;
    assert OtpOk(db, db.otps[k]);
  }

  lemma EvidenceStaysOk(db: Db, w: Write)
    requires DbOk(db) && WriteOk(db, w)
    ensures EvidenceOk(Perform(db, w))
  {
    hide OtpsOk, UniqueColumns, ReviewsOk, RefundsOk, Grown, RowOk;
    DbGrows(db, w);
    var after := Perform(db, w);
    forall id | id in after.bookings ensures Evidenced(after, id) {
      if id in db.bookings {
        assert Evidenced(db, id);
        if UsedOtp(db, id, Arrival) {
          UsedOtpStays(db, after, id, Arrival);
        }
        if UsedOtp(db, id, Completion) {
          UsedOtpStays(db, after, id, Completion);
        }
      }
    }
  }

  lemma OtpStaysOk(db: Db, later: Db, o: Otp)
    requires Grown(db, later) && RowsOk(db) && RowsOk(later) && OtpOk(db, o)
    ensures OtpOk(later, o)
  {
    assert Progressed(db.bookings[o.booking], later.bookings[o.booking]);
  }

  lemma OtpsStayOk(db: Db, w: Write)
    requires DbOk(db) && WriteOk(db, w)
    ensures OtpsOk(Perform(db, w))
  {
    hide EvidenceOk, UniqueColumns, ReviewsOk, RefundsOk, RowsOk;
    DbGrows(db, w);
    RowsStayOk(db, w);
    var after := Perform(db, w);
    forall k | 0 <= k < |after.otps| ensures OtpOk(after, after.otps[k]) {
      if k < |db.otps| {
        assert UsedStays(db.otps[k], after.otps[k]);
        OtpStaysOk(db, after, db.otps[k]);
      }
    }
    forall j, k | 0 <= j < k < |after.otps| && after.otps[j].kind == Completion && after.otps[k].kind == Completion
      ensures after.otps[j].booking != after.otps[k].booking
    {
      assert UsedStays(db.otps[j], after.otps[j]);
      if k < |db.otps| {
        assert UsedStays(db.otps[k], after.otps[k]);
      } else {
        assert w.InsertOtp? && after.otps[k] == w.otp;
        assert !IsOtp(db.otps[j], w.otp.booking, Completion);
      }
    }
  }

  lemma OrdersStayUnique(db: Db, w: Write)
    requires DbOk(db) && WriteOk(db, w)
    ensures OrdersUnique(Perform(db, w).bookings)
  {
    hide OtpsOk, EvidenceOk, ReviewsOk, RefundsOk, KeysUnique;
    var after := Perform(db, w).bookings;
    forall x, y | x in after && y in after && x != y ensures after[x].order != after[y].order {
    }
  }

  lemma KeysStayUnique(db: Db, w: Write)
    requires DbOk(db) && WriteOk(db, w)
    ensures KeysUnique(Perform(db, w).bookings)
  {
    hide OtpsOk, EvidenceOk, ReviewsOk, RefundsOk, OrdersUnique, RowsOk;
    var after := Perform(db, w).bookings;
    forall x, y | x in after && y in after && x != y && after[x].key.Some? ensures after[x].key != after[y].key {
    }
  }

  lemma ColumnsStayUnique(db: Db, w: Write)
    requires DbOk(db) && WriteOk(db, w)
    ensures UniqueColumns(Perform(db, w).bookings)
  {
    OrdersStayUnique(db, w);
    KeysStayUnique(db, w);
  }

  lemma ReviewsStayOk(db: Db, w: Write)
    requires DbOk(db) && WriteOk(db, w)
    ensures ReviewsOk(Perform(db, w))
  {
    hide EvidenceOk, UniqueColumns, OtpsOk, RefundsOk;
    DbGrows(db, w);
    var after := Perform(db, w);
    forall i | 0 <= i < |after.reviews|
      ensures after.reviews[i].booking in after.bookings
      ensures after.bookings[after.reviews[i].booking].status == Completed
    {
      if i < |db.reviews| {
        assert after.reviews[i] == db.reviews[i];
      }
    }
  }

  lemma RefundsStayOk(db: Db, w: Write)
    requires DbOk(db) && WriteOk(db, w)
    ensures RefundsOk(Perform(db, w))
  {
    hide EvidenceOk, UniqueColumns, OtpsOk, ReviewsOk;
    DbGrows(db, w);
    var after := Perform(db, w);
    forall i | 0 <= i < |after.refunds| ensures RefundOk(after, after.refunds[i]) {
      if i < |db.refunds| {
        assert after.refunds[i] == db.refunds[i];
        assert RefundOk(db, db.refunds[i]);
      }
    }
  }

  lemma WriteKeepsDbOk(db: Db, w: Write)
    requires DbOk(db) && WriteOk(db, w)
    ensures DbOk(Perform(db, w))
  {
    RowsStayOk(db, w);
    EvidenceStaysOk(db, w);
    OtpsStayOk(db, w);
    ColumnsStayUnique(db, w);
    ReviewsStayOk(db, w);
    RefundsStayOk(db, w);
  }

  // ------------------------------------------------------------------------------------------
  // Requests
  // ------------------------------------------------------------------------------------------

  ghost predicate OrderUnused(db: Db, order: Id) {
    forall id :: id in db.bookings ==> db.bookings[id].order != Some(order)
  }

  predicate OtpAt(db: Db, k: nat, id: Id, kind: OtpKind) {
    k < |db.otps| && IsOtp(db.otps[k], id, kind)
  }

  predicate Redeemed(db: Db, k: nat, id: Id, kind: OtpKind, digest: string) {
    OtpAt(db, k, id, kind) && db.otps[k].usedAt.Some? && db.otps[k].digest == digest
  }

  ghost predicate ReplyOk(db: Db, reply: Reply) {
    match reply
    case Created(key, id, order) =>
      && id in db.bookings && order.Some? && db.bookings[id].order == order
      && (Truthy(key) ==> db.bookings[id].key == key)
    case CreateRethrown(key) => key == Some("")
    case CancelOk(id) => id in db.bookings && db.bookings[id].status == Cancelled
    case OtpAccepted(kind, id, k, digest) =>
      && id in db.bookings && Redeemed(db, k, id, kind, digest)
      && (if kind.Arrival? then db.bookings[id].status in SERVED else db.bookings[id].status == Completed)
    case ReviewOk(id) => Reviewed(db.reviews, id)
    case _ => true
  }

  // What a request knows where it stands.
  ghost predicate PcOk(db: Db, pc: Pc) {
    match pc
    case CreateOrdering(c) => c.price >= MIN_AMOUNT
    case CreateInserting(c, order) => c.price >= MIN_AMOUNT && order in db.issued && OrderUnused(db, order)
    case CreateReading(c, _) => Truthy(c.key) && KeyTaken(db.bookings, c.key)
    case CancelRefunding(id, _, payment, amount) => RefundOk(db, Refund(id, payment, amount, 0))
    case OtpIssuing(kind, id) =>
      && OtpOk(db, NewOtp(kind, id, "", db.now))
      && (kind == Completion ==> !HasOtp(db, id, Completion))
    case OtpMarking(kind, id, k, _) => OtpAt(db, k, id, kind)
    case OtpWriting(kind, id, k, digest) => Redeemed(db, k, id, kind, digest)
    case ReviewFinding(id, _, _) => id in db.bookings && db.bookings[id].status == Completed
    case ReviewInserting(id, _, _) => id in db.bookings && db.bookings[id].status == Completed
    case Done(reply) => ReplyOk(db, reply)
    case _ => true
  }

  // What only one request at a time can hold: a gateway order it is about to store, the right to
  // issue a booking's completion OTP, and the outcome of ending a booking's confirmed phase.
  function ClaimedOrder(pc: Pc): Option<Id> {
    if pc.CreateInserting? then Some(pc.gatewayOrder) else None
  }

  function HandingOver(pc: Pc): Option<Id> {
    if pc.OtpIssuing? && pc.kind == Completion then Some(pc.id) else None
  }

  function Won(pc: Pc): Option<Id> {
    if pc.Done? && pc.reply.CancelOk? then
      Some(pc.reply.id)
    else if pc.Done? && pc.reply.OtpAccepted? && pc.reply.kind == Arrival then
      Some(pc.reply.id)
    else
      None
  }

  predicate Differ(a: Option<Id>, b: Option<Id>) {
    a.Some? ==> a != b
  }

  predicate Apart(p: Pc, q: Pc) {
    Differ(ClaimedOrder(p), ClaimedOrder(q)) && Differ(HandingOver(p), HandingOver(q)) && Differ(Won(p), Won(q))
  }

  ghost predicate Inv(s: State) {
    && DbOk(s.db)
    && (forall r :: r in s.requests ==> PcOk(s.db, s.requests[r]))
    && (forall p, q :: p in s.requests && q in s.requests && p != q ==> Apart(s.requests[p], s.requests[q]))
  }

  // ------------------------------------------------------------------------------------------
  // One step
  // ------------------------------------------------------------------------------------------

  lemma RefundIsWithinAmount(amount: int, slotStart: int, now: int)
    requires amount >= 0
    ensures 0 <= UserCancelRefund(amount, slotStart, now) <= amount
  {
  }

  // A step whose write is justified, and which leaves the request where it knows what it should.
  ghost predicate Sound(db: Db, plan: Plan) {
    WriteOk(db, plan.write) && PcOk(Perform(db, plan.write), Outcome(db, plan))
  }

  lemma IssuedOrdersAreUnused(db: Db, order: Id)
    requires RowsOk(db) && order !in db.issued
    ensures OrderUnused(db, order)
  {
  }

  lemma CreateIsSound(db: Db, pc: Pc, c: Choice)
    requires DbOk(db) && PcOk(db, pc) && c.newId !in db.issued
    requires pc.CreateStart? || pc.CreateOrdering? || pc.CreateInserting? || pc.CreateReading?
    ensures Sound(db, PlanCreate(db, pc, c))
  {
    hide OtpsOk, EvidenceOk, ReviewsOk, RefundsOk;
    if pc.CreateOrdering? {
      IssuedOrdersAreUnused(db, c.newId);
    }
  }

  lemma CancelStartIsSound(db: Db, pc: Pc, c: Choice)
    requires RowsOk(db) && pc.CancelStart?
    ensures Sound(db, PlanCancel(db, pc, c))
  {
    if pc.id in db.bookings {
      var b := db.bookings[pc.id];
      RefundIsWithinAmount(b.amount, b.slotStart, db.now);
    }
  }

  lemma CancelIsSound(db: Db, pc: Pc, c: Choice)
    requires DbOk(db) && PcOk(db, pc)
    requires pc.CancelStart? || pc.CancelRefunding? || pc.CancelWriting?
    ensures Sound(db, PlanCancel(db, pc, c))
  {
    hide RowsOk, OtpsOk, EvidenceOk, UniqueColumns, ReviewsOk, RefundsOk;
    if pc.CancelStart? {
      CancelStartIsSound(db, pc, c);
    }
  }

  lemma HookIsSound(db: Db, pc: Pc)
    requires pc.HookStart? || pc.HookFinding? || pc.HookWriting?
    ensures Sound(db, PlanHook(db, pc))
  {
  }

  lemma AssignIsSound(db: Db, pc: Pc)
    requires pc.AssignStart? || pc.AssignWriting?
    ensures Sound(db, PlanAssign(db, pc))
  {
  }

  lemma NoCompletionOtpYet(db: Db, id: Id)
    requires OtpsOk(db) && id in db.bookings && db.bookings[id].status == ArrivalConfirmed
    ensures !HasOtp(db, id, Completion)
  {
    forall k | 0 <= k < |db.otps| ensures !IsOtp(db.otps[k], id, Completion) {
      assert OtpOk(db, db.otps[k]);
    }
  }

  lemma MarkIsSound(db: Db, pc: Pc)
    requires DbOk(db)
    requires pc.MarkStart? || pc.MarkWriting?
    ensures Sound(db, PlanMark(db, pc))
  {
    hide RowsOk, OtpsOk, EvidenceOk, UniqueColumns, ReviewsOk, RefundsOk;
    if pc.MarkWriting? && pc.id in db.bookings && db.bookings[pc.id].status == ArrivalConfirmed {
      NoCompletionOtpYet(db, pc.id);
    }
  }

  lemma OtpIsSound(db: Db, pc: Pc, c: Choice)
    requires PcOk(db, pc)
    requires pc.OtpIssuing? || pc.OtpStart? || pc.OtpFinding? || pc.OtpMarking?
    ensures Sound(db, PlanOtp(db, pc, c))
  {
  }

  lemma AcceptIsSound(db: Db, pc: Pc, c: Choice)
    requires PcOk(db, pc) && pc.OtpWriting?
    ensures Sound(db, PlanOtp(db, pc, c))
  {
    assert UsedOtp(db, pc.id, pc.kind);
  }

  lemma ReviewIsSound(db: Db, pc: Pc)
    requires PcOk(db, pc)
    requires pc.ReviewStart? || pc.ReviewFinding? || pc.ReviewInserting?
    ensures Sound(db, PlanReview(db, pc))
  {
    var after := Perform(db, PlanReview(db, pc).write);
    if |after.reviews| > |db.reviews| {
      assert after.reviews[|db.reviews|].booking == pc.id;
    }
  }

  lemma IntendedIsSound(db: Db, pc: Pc, c: Choice)
    requires DbOk(db) && PcOk(db, pc) && c.newId !in db.issued
    ensures Sound(db, Intended(db, pc, c))
  {
    hide DbOk;
    if pc.CreateStart? || pc.CreateOrdering? || pc.CreateInserting? || pc.CreateReading? {
      CreateIsSound(db, pc, c);
    } else if pc.CancelStart? || pc.CancelRefunding? || pc.CancelWriting? {
      CancelIsSound(db, pc, c);
    } else if pc.HookStart? || pc.HookFinding? || pc.HookWriting? {
      HookIsSound(db, pc);
    } else if pc.AssignStart? || pc.AssignWriting? {
      AssignIsSound(db, pc);
    } else if pc.MarkStart? || pc.MarkWriting? {
      MarkIsSound(db, pc);
    } else if pc.ReviewStart? || pc.ReviewFinding? || pc.ReviewInserting? {
      ReviewIsSound(db, pc);
    } else if pc.OtpWriting? {
      AcceptIsSound(db, pc, c);
    } else if !pc.Done? {
      OtpIsSound(db, pc, c);
    }
  }

  // A request whose update or refund call failed is over and knows nothing.
  predicate Refused(pc: Pc) {
    pc in {Done(Conflict), Done(BadRequest), Done(HookOk)}
  }

  lemma UpdatesCanBeRefused(db: Db, pc: Pc, c: Choice)
    ensures CanFail(Intended(db, pc, c).write) ==> Refused(Intended(db, pc, c).fail)
  {
  }

  lemma StruckIsSound(db: Db, plan: Plan, fault: Fault)
    requires Sound(db, plan) && (CanFail(plan.write) ==> Refused(plan.fail))
    ensures Sound(db, Struck(plan, fault))
  {
  }

  lemma PlanIsSound(db: Db, pc: Pc, c: Choice)
    requires DbOk(db) && PcOk(db, pc) && c.newId !in db.issued
    ensures Sound(db, PlanOf(db, pc, c))
  {
    IntendedIsSound(db, pc, c);
    UpdatesCanBeRefused(db, pc, c);
    StruckIsSound(db, Intended(db, pc, c), c.fault);
  }

  lemma RedeemedStays(db: Db, later: Db, k: nat, id: Id, kind: OtpKind, digest: string)
    requires Grown(db, later) && Redeemed(db, k, id, kind, digest)
    ensures Redeemed(later, k, id, kind, digest)
  {
    assert UsedStays(db.otps[k], later.otps[k]);
  }

  lemma ReplyStaysOk(db: Db, later: Db, reply: Reply)
    requires Grown(db, later) && RowsOk(later) && ReplyOk(db, reply)
    ensures ReplyOk(later, reply)
  {
    match reply
    case OtpAccepted(kind, id, k, digest) =>
      RedeemedStays(db, later, k, id, kind, digest);
      assert Progressed(db.bookings[id], later.bookings[id]);
    case Created(_, id, _) =>
      assert Progressed(db.bookings[id], later.bookings[id]);
    case CancelOk(id) =>
      assert Progressed(db.bookings[id], later.bookings[id]);
    case ReviewOk(id) =>
      var i :| 0 <= i < |db.reviews| && db.reviews[i].booking == id;
      assert later.reviews[i] == db.reviews[i];
    case _ =>
  }

  // The two facts about absence that a write can break.
  predicate Spares(w: Write, pc: Pc) {
    && (w.InsertOtp? && pc.OtpIssuing? && pc.kind == Completion ==> !IsOtp(w.otp, pc.id, Completion))
    && (w.InsertBooking? && pc.CreateInserting? ==> w.row.order != Some(pc.gatewayOrder))
  }

  lemma ProgressKeepsRefundOk(db: Db, later: Db, r: Refund)
    requires Grown(db, later) && RefundOk(db, r)
    ensures RefundOk(later, r)
  {
    assert Progressed(db.bookings[r.booking], later.bookings[r.booking]);
  }

  lemma KeyStaysTaken(db: Db, later: Db, key: Option<string>)
    requires Grown(db, later) && KeyTaken(db.bookings, key)
    ensures KeyTaken(later.bookings, key)
  {
    var id :| id in db.bookings && db.bookings[id].key == key;
    assert later.bookings[id].key == key;
  }

  lemma IssuingStaysOk(db: Db, w: Write, pc: Pc)
    requires DbOk(db) && WriteOk(db, w) && pc.OtpIssuing? && PcOk(db, pc) && Spares(w, pc)
    ensures PcOk(Perform(db, w), pc)
  {
    DbGrows(db, w);
    RowsStayOk(db, w);
    OtpStaysOk(db, Perform(db, w), NewOtp(pc.kind, pc.id, "", db.now));
    if pc.kind == Completion {
      NoNewOtp(db, w, pc.id);
    }
  }

  lemma InsertingStaysOk(db: Db, w: Write, pc: Pc)
    requires DbOk(db) && WriteOk(db, w) && pc.CreateInserting? && PcOk(db, pc) && Spares(w, pc)
    ensures PcOk(Perform(db, w), pc)
  {
    DbGrows(db, w);
  }

  // What one request knows survives a write of another.
  lemma OthersStayOk(db: Db, w: Write, pc: Pc)
    requires DbOk(db) && WriteOk(db, w) && PcOk(db, pc) && Spares(w, pc)
    ensures PcOk(Perform(db, w), pc)
  {
    if pc.OtpIssuing? {
      IssuingStaysOk(db, w, pc);
    } else if pc.CreateInserting? {
      InsertingStaysOk(db, w, pc);
    } else {
      DbGrows(db, w);
      RowsStayOk(db, w);
      SettledStaysOk(db, Perform(db, w), pc);
    }
  }

  lemma SettledStaysOk(db: Db, later: Db, pc: Pc)
    requires Grown(db, later) && RowsOk(later) && PcOk(db, pc) && !pc.OtpIssuing? && !pc.CreateInserting?
    ensures PcOk(later, pc)
  {
    match pc
    case CreateReading(c, _) => KeyStaysTaken(db, later, c.key);
    case CancelRefunding(id, _, payment, amount) => ProgressKeepsRefundOk(db, later, Refund(id, payment, amount, 0));
    case OtpMarking(_, _, k, _) => assert UsedStays(db.otps[k], later.otps[k]);
    case OtpWriting(kind, id, k, digest) => RedeemedStays(db, later, k, id, kind, digest);
    case Done(reply) => ReplyStaysOk(db, later, reply);
    case _ =>
  }

  lemma NoNewOtp(db: Db, w: Write, id: Id)
    requires DbOk(db) && WriteOk(db, w)
    requires w.InsertOtp? ==> !IsOtp(w.otp, id, Completion)
    ensures HasOtp(Perform(db, w), id, Completion) ==> HasOtp(db, id, Completion)
  {
    var after := Perform(db, w);
    DbGrows(db, w);
    if HasOtp(after, id, Completion) {
      var k :| 0 <= k < |after.otps| && IsOtp(after.otps[k], id, Completion);
      assert k < |db.otps|;
      assert UsedStays(db.otps[k], after.otps[k]);
    }
  }

  lemma IntendedSpares(db: Db, pc: Pc, c: Choice, other: Pc)
    requires DbOk(db) && PcOk(db, pc) && Apart(pc, other)
    ensures Spares(Intended(db, pc, c).write, other)
  {
    hide DbOk;
  }

  lemma PlanSpares(db: Db, pc: Pc, c: Choice, other: Pc)
    requires DbOk(db) && PcOk(db, pc) && Apart(pc, other)
    ensures Spares(PlanOf(db, pc, c).write, other)
  {
    IntendedSpares(db, pc, c, other);
  }

  predicate HoldsNothing(pc: Pc) {
    ClaimedOrder(pc) == None && HandingOver(pc) == None && Won(pc) == None
  }

  lemma OrdinaryNext(db: Db, pc: Pc, c: Choice)
    requires !pc.MarkWriting? && !pc.CreateOrdering? && !pc.CancelWriting? && !pc.OtpWriting? && !pc.Done?
    ensures HoldsNothing(Outcome(db, Intended(db, pc, c)))
  {
  }

  lemma WinnerIsApart(db: Db, plan: Plan, id: Id, other: Pc)
    requires PcOk(db, other)
    requires plan.write.Cancel? || plan.write.ConfirmArrival? || plan.write.Complete?
    requires plan.write.id == id && HoldsNothing(plan.fail)
    requires ClaimedOrder(plan.ok) == None && HandingOver(plan.ok) == None
    requires Won(plan.ok).Some? ==> Won(plan.ok) == Some(id) && !plan.write.Complete?
    ensures Apart(Outcome(db, plan), other)
  {
    assert Won(other) == Some(id) ==> id in db.bookings && db.bookings[id].status !in {PendingPayment, Confirmed};
  }

  lemma HandingOverIsApart(db: Db, pc: Pc, other: Pc)
    requires PcOk(db, other) && pc.MarkWriting?
    ensures Apart(Outcome(db, PlanMark(db, pc)), other)
  {
  }

  lemma OrderingIsApart(db: Db, pc: Pc, c: Choice, other: Pc)
    requires PcOk(db, other) && c.newId !in db.issued && pc.CreateOrdering?
    ensures Apart(Outcome(db, PlanCreate(db, pc, c)), other)
  {
  }

  lemma IntendedApart(db: Db, pc: Pc, c: Choice, other: Pc)
    requires PcOk(db, other) && c.newId !in db.issued && !pc.Done?
    ensures Apart(Outcome(db, Intended(db, pc, c)), other)
  {
    if pc.CancelWriting? {
      WinnerIsApart(db, PlanCancel(db, pc, c), pc.id, other);
    } else if pc.OtpWriting? {
      WinnerIsApart(db, PlanOtp(db, pc, c), pc.id, other);
    } else if pc.MarkWriting? {
      HandingOverIsApart(db, pc, other);
    } else if pc.CreateOrdering? {
      OrderingIsApart(db, pc, c, other);
    } else {
      OrdinaryNext(db, pc, c);
    }
  }

  lemma StruckOutcome(db: Db, plan: Plan, fault: Fault)
    ensures Outcome(db, Struck(plan, fault)) == Outcome(db, plan) ||
            (CanFail(plan.write) && Outcome(db, Struck(plan, fault)) == plan.fail)
  {
  }

  lemma NextApart(db: Db, pc: Pc, c: Choice, other: Pc)
    requires PcOk(db, other) && c.newId !in db.issued && !pc.Done?
    ensures Apart(Next(db, pc, c), other)
  {
    IntendedApart(db, pc, c, other);
    UpdatesCanBeRefused(db, pc, c);
    StruckOutcome(db, Intended(db, pc, c), c.fault);
  }

  lemma AdvanceSpares(db: Db, pc: Pc, c: Choice, other: Pc)
    requires DbOk(db) && PcOk(db, pc) && PcOk(db, other) && c.newId !in db.issued && !pc.Done?
    requires Apart(pc, other)
    ensures PcOk(Perform(db, PlanOf(db, pc, c).write), other)
    ensures Apart(Next(db, pc, c), other)
  {
    PlanIsSound(db, pc, c);
    PlanSpares(db, pc, c, other);
    OthersStayOk(db, PlanOf(db, pc, c).write, other);
    NextApart(db, pc, c, other);
  }

  lemma AdvanceKeepsInv(s: State, r: Id, c: Choice)
    requires Inv(s) && Enabled(s, Advance(r, c))
    ensures Inv(Step(s, Advance(r, c)))
  {
    var pc := s.requests[r];
    var after := Perform(s.db, PlanOf(s.db, pc, c).write);
    var next := Next(s.db, pc, c);
    assert DbOk(after) && PcOk(after, next) by {
      PlanIsSound(s.db, pc, c);
      WriteKeepsDbOk(s.db, PlanOf(s.db, pc, c).write);
    }
    forall q | q in s.requests && q != r
      ensures PcOk(after, s.requests[q]) && Apart(next, s.requests[q])
    {
      AdvanceSpares(s.db, pc, c, s.requests[q]);
    }
    OthersKeepInv(s, r, after, next);
  }

  lemma OthersKeepInv(s: State, r: Id, after: Db, next: Pc)
    requires Inv(s) && r in s.requests && DbOk(after) && PcOk(after, next)
    requires forall q :: q in s.requests && q != r ==>
               PcOk(after, s.requests[q]) && Apart(next, s.requests[q])
    ensures Inv(State(after, s.requests[r := next]))
  {
  }

  lemma TickKeepsDbOk(db: Db, later: Db)
    requires DbOk(db) && later == db.(now := later.now)
    ensures DbOk(later)
  {
    forall id | id in later.bookings ensures Evidenced(later, id) {
      assert Evidenced(db, id);
      assert UsedOtp(db, id, Arrival) ==> UsedOtp(later, id, Arrival);
      assert UsedOtp(db, id, Completion) ==> UsedOtp(later, id, Completion);
    }
    assert forall k :: 0 <= k < |later.otps| ==> OtpOk(db, later.otps[k]);
    assert forall i :: 0 <= i < |later.refunds| ==> RefundOk(db, later.refunds[i]);
  }

  lemma TickKeepsPcOk(db: Db, later: Db, pc: Pc)
    requires PcOk(db, pc) && later == db.(now := later.now)
    ensures PcOk(later, pc)
  {
  }

  lemma TickIs(s: State, elapsed: nat)
    ensures Step(s, Tick(elapsed)) == s.(db := s.db.(now := s.db.now + elapsed))
  {
  }

  lemma TickKeepsInv(s: State, elapsed: nat)
    requires Inv(s)
    ensures Inv(s.(db := s.db.(now := s.db.now + elapsed)))
  {
    var later := s.db.(now := s.db.now + elapsed);
    assert DbOk(later) by { TickKeepsDbOk(s.db, later); }
    forall r | r in s.requests ensures PcOk(later, s.requests[r]) {
      TickKeepsPcOk(s.db, later, s.requests[r]);
    }
  }

  lemma StartKeepsInv(s: State, r: Id, entry: Pc)
    requires Inv(s) && Enabled(s, Start(r, entry))
    ensures Inv(Step(s, Start(r, entry)))
  {
    assert HoldsNothing(entry);
  }

  // Every step of every interleaving keeps the invariant.
  lemma StepKeepsInv(s: State, a: Action)
    requires Inv(s) && Enabled(s, a)
    ensures Inv(Step(s, a))
  {
    match a
    case Start(r, entry) => StartKeepsInv(s, r, entry);
    case Tick(elapsed) =>
      TickKeepsInv(s, elapsed);
      TickIs(s, elapsed);
    case Advance(r, c) => AdvanceKeepsInv(s, r, c);
  }

  lemma StepGrows(s: State, a: Action)
    requires Inv(s) && Enabled(s, a)
    ensures Grown(s.db, Step(s, a).db)
  {
    if a.Advance? {
      PlanIsSound(s.db, s.requests[a.request], a.choice);
      DbGrows(s.db, PlanOf(s.db, s.requests[a.request], a.choice).write);
    }
  }

  lemma {:induction false} RunKeepsInv(s: State, acts: seq<Action>)
    requires Inv(s) && IsRun(s, acts)
    ensures Inv(After(s, acts)) && Grown(s.db, After(s, acts).db)
  {
    if acts == [] {
    } else {
      var front := acts[..|acts| - 1];
      RunKeepsInv(s, front);
      StepKeepsInv(After(s, front), acts[|acts| - 1]);
      StepGrows(After(s, front), acts[|acts| - 1]);
      GrownTransitive(s.db, After(s, front).db, After(s, acts).db);
    }
  }

  lemma ColumnsAreUnique(s: State)
    requires Inv(s)
    ensures UniqueColumns(s.db.bookings)
  {
  }

  lemma InitOk()
    ensures Inv(Init)
  {
  }
}
