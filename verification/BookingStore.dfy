/**
 The booking database and its atomic operations.  Every status change is one guarded update: it
 takes effect only while the row's status is in the set the update names.
 */
module BookingStore {
  import opened Common
  import opened BookingTypes

  const OTP_TTL := 15 * 60 * 1000

  datatype Db = Db(
    bookings: map<Id, Booking>,
    otps: seq<Otp>,             // in creation order
    events: set<string>,        // claimed webhook event ids
    reviews: seq<Review>,
    refunds: seq<Refund>,       // what the gateway refunded, in order
    issued: set<Id>,            // every id handed out so far, by the database or the gateway
    now: int)

  const EmptyDb := Db(map[], [], {}, [], [], {}, 0)

  // ------------------------------------------------------------------------------------------
  // Row updates
  // ------------------------------------------------------------------------------------------

  function Guard(w: Write): set<Status> {
    match w
    case Capture(_, _) => {PendingPayment}
    case FailPayment(_) => {PendingPayment}
    case Cancel(_, _, _, _) => {Confirmed, PendingPayment}
    case AssignPerson(_, _) => {Confirmed}
    case ConfirmArrival(_) => {Confirmed}
    case RequestCompletion(_) => {ArrivalConfirmed}
    case Complete(_) => {PendingCompletionVerification}
    case _ => {}
  }

  // The new row of a guarded update.
  function Updated(b: Booking, w: Write, now: int): Booking {
    match w
    case Capture(_, payment) => b.(status := Confirmed, payment := Some(payment), confirmedAt := Some(now))
    case FailPayment(_) => b.(status := PaymentFailed)
    case Cancel(_, who, amount, refund) =>
      b.(status := Cancelled, cancelledAt := Some(now), cancelledBy := Some(who), refundAmount := amount,
         refundId := refund)
    case AssignPerson(_, person) => b.(person := Some(person))
    case ConfirmArrival(_) => b.(status := ArrivalConfirmed, arrivalConfirmedAt := Some(now))
    case RequestCompletion(_) => b.(status := PendingCompletionVerification)
    case Complete(_) => b.(status := Completed, completedAt := Some(now))
    case _ => b
  }

  // One atomic write to the database or one effect at the gateway.
  datatype Write =
    | NoWrite
    | InsertBooking(id: Id, row: Booking)
    | Capture(id: Id, payment: Id)
    | FailPayment(id: Id)
    | Cancel(id: Id, who: Canceller, amount: Option<int>, refund: Option<Id>)
    | AssignPerson(id: Id, person: Id)
    | ConfirmArrival(id: Id)
    | RequestCompletion(id: Id)
    | Complete(id: Id)
    | InsertOtp(otp: Otp)
    | MarkUsed(index: nat)
    | ClaimEvent(event: string)
    | InsertReview(review: Review)
    | CreateOrder(order: Id)
    | RefundPayment(refunded: Refund)

  predicate IsUpdate(w: Write) {
    w.Capture? || w.FailPayment? || w.Cancel? || w.AssignPerson? || w.ConfirmArrival? || w.RequestCompletion? ||
    w.Complete?
  }

  ghost predicate KeyTaken(bookings: map<Id, Booking>, key: Option<string>) {
    key.Some? && exists id :: id in bookings && bookings[id].key == key
  }

  ghost predicate OrderTaken(bookings: map<Id, Booking>, order: Option<Id>) {
    order.Some? && exists id :: id in bookings && bookings[id].order == order
  }

  predicate Reviewed(reviews: seq<Review>, id: Id) {
    exists i :: 0 <= i < |reviews| && reviews[i].booking == id
  }

  // Whether the write takes effect: an update matches a row, an insert meets no unique key.
  ghost predicate Succeeds(db: Db, w: Write) {
    match w
    case InsertBooking(_, row) => !KeyTaken(db.bookings, row.key) && !OrderTaken(db.bookings, row.order)
    case ClaimEvent(event) => event !in db.events
    case InsertReview(review) => !Reviewed(db.reviews, review.booking)
    case MarkUsed(index) => index < |db.otps|
    case _ => IsUpdate(w) ==> w.id in db.bookings && db.bookings[w.id].status in Guard(w)
  }

  ghost function Perform(db: Db, w: Write): Db {
    if !Succeeds(db, w) then
      db
    else if IsUpdate(w) then
      db.(bookings := db.bookings[w.id := Updated(db.bookings[w.id], w, db.now)])
    else
      match w
      case InsertBooking(id, row) => db.(bookings := db.bookings[id := row], issued := db.issued + {id})
      case InsertOtp(otp) => db.(otps := db.otps + [otp])
      case MarkUsed(index) => db.(otps := db.otps[index := db.otps[index].(usedAt := Some(db.now))])
      case ClaimEvent(event) => db.(events := db.events + {event})
      case InsertReview(review) => db.(reviews := db.reviews + [review])
      case CreateOrder(order) => db.(issued := db.issued + {order})
      case RefundPayment(refund) => db.(refunds := db.refunds + [refund], issued := db.issued + {refund.id})
      case _ => db
  }

  // The booking can still be cancelled.
  predicate Open(db: Db, id: Id) {
    id in db.bookings && db.bookings[id].status in {PendingPayment, Confirmed}
  }

  // ------------------------------------------------------------------------------------------
  // What any write may do to a row
  // ------------------------------------------------------------------------------------------

  function Rank(s: Status): nat {
    match s
    case PendingPayment => 0
    case Confirmed => 1
    case InProgress => 1
    case ArrivalConfirmed => 2
    case PendingCompletionVerification => 3
    case PaymentFailed => 4
    case Completed => 4
    case Cancelled => 4
  }

  predicate Terminal(s: Status) {
    s in {PaymentFailed, Completed, Cancelled}
  }

  // The statuses a row can have moved to.
  predicate Follows(before: Status, after: Status) {
    || after == before
    || (match before
        case PendingPayment => after != InProgress
        case Confirmed => after in {ArrivalConfirmed, PendingCompletionVerification, Completed, Cancelled}
        case ArrivalConfirmed => after in {PendingCompletionVerification, Completed}
        case PendingCompletionVerification => after == Completed
        case _ => false)
  }

  // What was set once stays as it is.
  predicate Kept<T(==)>(before: Option<T>, after: Option<T>) {
    before.Some? ==> after == before
  }

  // The row may have moved on: its identity is fixed, its status has kept or moved forward, every
  // outcome is written once and a finished row is frozen.
  predicate Progressed(b: Booking, c: Booking) {
    && c.key == b.key && c.user == b.user && c.provider == b.provider && c.amount == b.amount && c.order == b.order
    && c.slotStart == b.slotStart && c.slotEnd == b.slotEnd
    && Follows(b.status, c.status)
    && (Terminal(b.status) ==> c == b)
    && Kept(b.payment, c.payment) && Kept(b.confirmedAt, c.confirmedAt)
    && (b.person.Some? ==> c.person.Some?)
    && Kept(b.arrivalConfirmedAt, c.arrivalConfirmedAt) && Kept(b.completedAt, c.completedAt)
    && Kept(b.cancelledAt, c.cancelledAt) && Kept(b.cancelledBy, c.cancelledBy)
    && Kept(b.refundAmount, c.refundAmount) && Kept(b.refundId, c.refundId)
  }

  // The outcome columns of a row agree with its status.
  predicate RowOk(b: Booking) {
    && b.order.Some? && b.amount >= 100
    && b.status != InProgress
    && (b.payment.Some? <==> b.confirmedAt.Some?)
    && (b.status in {Confirmed, ArrivalConfirmed, PendingCompletionVerification, Completed} ==> b.payment.Some?)
    && (b.status in {PendingPayment, PaymentFailed} ==> b.payment.None? && b.person.None?)
    && (b.status in {ArrivalConfirmed, PendingCompletionVerification, Completed} ==> b.person.Some?)
    && (b.status in {PendingPayment, PaymentFailed, Confirmed, Cancelled} ==> b.arrivalConfirmedAt.None?)
    && (b.status in {ArrivalConfirmed, PendingCompletionVerification, Completed} ==> b.arrivalConfirmedAt.Some?)
    && (b.status == Completed <==> b.completedAt.Some?)
    && (b.status == Cancelled <==> b.cancelledAt.Some?)
    && (b.status == Cancelled <==> b.cancelledBy.Some?)
    && (b.status != Cancelled ==> b.refundAmount.None? && b.refundId.None?)
  }

  predicate UsedStays(o: Otp, p: Otp) {
    p.booking == o.booking && p.kind == o.kind && p.digest == o.digest && p.expiresAt == o.expiresAt &&
    (o.usedAt.Some? ==> p.usedAt.Some?)
  }

  // Nothing is lost between two database states.
  ghost predicate Grown(db: Db, later: Db) {
    && (forall id :: id in db.bookings ==> id in later.bookings && Progressed(db.bookings[id], later.bookings[id]))
    && |db.otps| <= |later.otps|
    && (forall k :: 0 <= k < |db.otps| ==> UsedStays(db.otps[k], later.otps[k]))
    && db.events <= later.events
    && db.reviews <= later.reviews
    && db.refunds <= later.refunds
    && db.issued <= later.issued
    && db.now <= later.now
  }

  lemma UpdateProgresses(b: Booking, w: Write, now: int)
    requires IsUpdate(w) && b.status in Guard(w) && RowOk(b)
    ensures Progressed(b, Updated(b, w, now))
  {
  }

  lemma ProgressedReflexive(b: Booking)
    ensures Progressed(b, b)
  {
  }

  lemma WriteGrows(db: Db, w: Write)
    requires forall id :: id in db.bookings ==> RowOk(db.bookings[id])
    requires w.InsertBooking? ==> w.id !in db.bookings
    ensures Grown(db, Perform(db, w))
  {
    hide Progressed, RowOk, Updated;
    if Succeeds(db, w) && IsUpdate(w) {
      UpdateProgresses(db.bookings[w.id], w, db.now);
    }
    forall id | id in db.bookings ensures Progressed(db.bookings[id], Perform(db, w).bookings[id]) {
      ProgressedReflexive(db.bookings[id]);
    }
  }

  lemma ProgressedTransitive(a: Booking, b: Booking, c: Booking)
    requires Progressed(a, b) && Progressed(b, c)
    ensures Progressed(a, c)
  {
  }

  lemma GrownTransitive(a: Db, b: Db, c: Db)
    requires Grown(a, b) && Grown(b, c)
    ensures Grown(a, c)
  {
    forall id | id in a.bookings ensures id in c.bookings && Progressed(a.bookings[id], c.bookings[id]) {
      ProgressedTransitive(a.bookings[id], b.bookings[id], c.bookings[id]);
    }
  }
}
