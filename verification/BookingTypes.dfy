/** The rows of the booking service's database. */
module BookingTypes {
  import opened Common

  // Row ids, account ids and payment-gateway ids; only their equality matters.
  type Id = nat

  // InProgress is declared by the schema but no transition reaches it.
  datatype Status =
    | PendingPayment
    | PaymentFailed
    | Confirmed
    | InProgress
    | ArrivalConfirmed
    | PendingCompletionVerification
    | Completed
    | Cancelled

  datatype Canceller = ByUser | ByProvider

  datatype OtpKind = Arrival | Completion

  datatype Booking = Booking(
    key: Option<string>,          // idempotencyKey
    user: Id,
    provider: Id,
    status: Status,
    slotStart: int,               // milliseconds
    slotEnd: int,
    amount: int,                  // paise
    order: Option<Id>,            // razorpayOrderId
    payment: Option<Id>,          // razorpayPaymentId
    person: Option<Id>,           // assignedServicePersonId
    confirmedAt: Option<int>,
    arrivalConfirmedAt: Option<int>,
    completedAt: Option<int>,
    cancelledAt: Option<int>,
    cancelledBy: Option<Canceller>,
    refundAmount: Option<int>,
    refundId: Option<Id>)

  datatype Otp = Otp(booking: Id, kind: OtpKind, digest: string, expiresAt: int, usedAt: Option<int>)

  datatype Review = Review(booking: Id, user: Id, rating: int)

  // A refund the payment gateway carried out.
  datatype Refund = Refund(booking: Id, payment: Id, amount: int, id: Id)
}
