/**
 The booking tables as the repositories change them, one statement at a time.  A status update that
 meets a database fault reports failure, whether or not the fault struck after the row had changed.
 */
module BookingRepository {
  import opened Common
  import opened BookingTypes
  import opened BookingStore
  import opened BookingProtocol
  import opened BookingInvariant

  class BookingDatabase {
    var bookings: map<Id, Booking>
    var otps: seq<Otp>
    var events: set<string>
    var reviews: seq<Review>
    var refunds: seq<Refund>
    ghost var issued: set<Id>
    var now: int

    ghost function Snapshot(): Db
      reads this
    {
      Db(bookings, otps, events, reviews, refunds, issued, now)
    }

    constructor ()
      ensures Snapshot() == EmptyDb
    {
      bookings, otps, events, reviews, refunds, issued, now := map[], [], {}, [], [], {}, 0;
    }

    // ----------------------------------------------------------------------------------------
    // Bookings
    // ----------------------------------------------------------------------------------------

    method Create(id: Id, row: Booking) returns (ok: bool)
      modifies this
      ensures Snapshot() == Perform(old(Snapshot()), InsertBooking(id, row))
      ensures ok == Succeeds(old(Snapshot()), InsertBooking(id, row))
    {
      var keyTaken := row.key.Some? && exists x :: x in bookings && bookings[x].key == row.key;
      var orderTaken := row.order.Some? && exists x :: x in bookings && bookings[x].order == row.order;
      ok := !keyTaken && !orderTaken;
      if ok {
        bookings := bookings[id := row];
        issued := issued + {id};
      }
    }

    method FindByIdempotencyKey(key: Option<string>) returns (found: Option<Id>)
      requires UniqueColumns(bookings)
      ensures found == FindByKey(bookings, key)
    {
      if key.Some? && exists id :: id in bookings && bookings[id].key == key {
        var id :| id in bookings && bookings[id].key == key;
        found := Some(id);
      } else {
        found := None;
      }
    }

    method FindByRazorpayOrderId(order: Option<Id>) returns (found: Option<Id>)
      requires UniqueColumns(bookings)
      ensures found == FindByOrder(bookings, order)
    {
      if order.Some? && exists id :: id in bookings && bookings[id].order == order {
        var id :| id in bookings && bookings[id].order == order;
        found := Some(id);
      } else {
        found := None;
      }
    }

    method UpdatePaymentCaptured(id: Id, payment: Id, fault: Fault) returns (ok: bool)
      modifies this`bookings
      ensures Snapshot() == if fault == NotWritten then old(Snapshot()) else Perform(old(Snapshot()), Capture(id, payment))
      ensures ok == (fault == NoFault && Succeeds(old(Snapshot()), Capture(id, payment)))
    {
      if fault == NotWritten {
        return false;
      }
      ok := id in bookings && bookings[id].status == PendingPayment;
      if ok {
        bookings := bookings[id := bookings[id].(status := Confirmed, payment := Some(payment), confirmedAt := Some(now))];
      }
      if fault == NotReported {
        return false;
      }
    }

    method UpdatePaymentFailed(id: Id, fault: Fault) returns (ok: bool)
      modifies this`bookings
      ensures Snapshot() == if fault == NotWritten then old(Snapshot()) else Perform(old(Snapshot()), FailPayment(id))
      ensures ok == (fault == NoFault && Succeeds(old(Snapshot()), FailPayment(id)))
    {
      if fault == NotWritten {
        return false;
      }
      ok := id in bookings && bookings[id].status == PendingPayment;
      if ok {
        bookings := bookings[id := bookings[id].(status := PaymentFailed)];
      }
      if fault == NotReported {
        return false;
      }
    }

    method UpdateCancelled(id: Id, who: Canceller, amount: Option<int>, refund: Option<Id>, fault: Fault) returns (ok: bool)
      modifies this`bookings
      ensures Snapshot() == if fault == NotWritten then old(Snapshot()) else Perform(old(Snapshot()), Cancel(id, who, amount, refund))
      ensures ok == (fault == NoFault && Succeeds(old(Snapshot()), Cancel(id, who, amount, refund)))
    {
      if fault == NotWritten {
        return false;
      }
      ok := id in bookings && (bookings[id].status == Confirmed || bookings[id].status == PendingPayment);
      if ok {
        bookings := bookings[id := bookings[id].(status := Cancelled, cancelledAt := Some(now), cancelledBy := Some(who),
                                                 refundAmount := amount, refundId := refund)];
      }
      if fault == NotReported {
        return false;
      }
    }

    method UpdateAssignedServicePerson(id: Id, person: Id, fault: Fault) returns (ok: bool)
      modifies this`bookings
      ensures Snapshot() == if fault == NotWritten then old(Snapshot()) else Perform(old(Snapshot()), AssignPerson(id, person))
      ensures ok == (fault == NoFault && Succeeds(old(Snapshot()), AssignPerson(id, person)))
    {
      if fault == NotWritten {
        return false;
      }
      ok := id in bookings && bookings[id].status == Confirmed;
      if ok {
        bookings := bookings[id := bookings[id].(person := Some(person))];
      }
      if fault == NotReported {
        return false;
      }
    }

    method UpdateArrivalConfirmed(id: Id, fault: Fault) returns (ok: bool)
      modifies this`bookings
      ensures Snapshot() == if fault == NotWritten then old(Snapshot()) else Perform(old(Snapshot()), ConfirmArrival(id))
      ensures ok == (fault == NoFault && Succeeds(old(Snapshot()), ConfirmArrival(id)))
    {
      if fault == NotWritten {
        return false;
      }
      ok := id in bookings && bookings[id].status == Confirmed;
      if ok {
        bookings := bookings[id := bookings[id].(status := ArrivalConfirmed, arrivalConfirmedAt := Some(now))];
      }
      if fault == NotReported {
        return false;
      }
    }

    method UpdatePendingCompletionVerification(id: Id, fault: Fault) returns (ok: bool)
      modifies this`bookings
      ensures Snapshot() == if fault == NotWritten then old(Snapshot()) else Perform(old(Snapshot()), RequestCompletion(id))
      ensures ok == (fault == NoFault && Succeeds(old(Snapshot()), RequestCompletion(id)))
    {
      if fault == NotWritten {
        return false;
      }
      ok := id in bookings && bookings[id].status == ArrivalConfirmed;
      if ok {
        bookings := bookings[id := bookings[id].(status := PendingCompletionVerification)];
      }
      if fault == NotReported {
        return false;
      }
    }

    method UpdateCompleted(id: Id, fault: Fault) returns (ok: bool)
      modifies this`bookings
      ensures Snapshot() == if fault == NotWritten then old(Snapshot()) else Perform(old(Snapshot()), Complete(id))
      ensures ok == (fault == NoFault && Succeeds(old(Snapshot()), Complete(id)))
    {
      if fault == NotWritten {
        return false;
      }
      ok := id in bookings && bookings[id].status == PendingCompletionVerification;
      if ok {
        bookings := bookings[id := bookings[id].(status := Completed, completedAt := Some(now))];
      }
      if fault == NotReported {
        return false;
      }
    }

    // ----------------------------------------------------------------------------------------
    // OTPs, webhook claims, reviews
    // ----------------------------------------------------------------------------------------

    method CreateOtp(id: Id, kind: OtpKind, digest: string)
      modifies this`otps
      ensures Snapshot() == Perform(old(Snapshot()), InsertOtp(NewOtp(kind, id, digest, now)))
    {
      otps := otps + [Otp(id, kind, digest, now + 15 * 60 * 1000, None)];
    }

    method MarkOtpUsed(index: nat)
      requires index < |otps|
      modifies this`otps
      ensures Snapshot() == Perform(old(Snapshot()), MarkUsed(index))
    {
      otps := otps[index := otps[index].(usedAt := Some(now))];
    }

    method CreateStrict(event: string) returns (claimed: bool)
      modifies this`events
      ensures Snapshot() == Perform(old(Snapshot()), ClaimEvent(event))
      ensures claimed == Succeeds(old(Snapshot()), ClaimEvent(event))
    {
      claimed := event !in events;
      events := events + {event};
    }

    method CreateReview(review: Review) returns (ok: bool)
      modifies this`reviews
      ensures Snapshot() == Perform(old(Snapshot()), InsertReview(review))
      ensures ok == Succeeds(old(Snapshot()), InsertReview(review))
    {
      ok := !exists i :: 0 <= i < |reviews| && reviews[i].booking == review.booking;
      if ok {
        reviews := reviews + [review];
      }
    }

    // ----------------------------------------------------------------------------------------
    // The payment gateway, with its ledger
    // ----------------------------------------------------------------------------------------

    method CreateRazorpayOrder(order: Id)
      modifies this`issued
      ensures Snapshot() == Perform(old(Snapshot()), CreateOrder(order))
    {
      issued := issued + {order};
    }

    // The call can fail before the gateway acts, as when it refuses, or after it.
    method CreateRazorpayRefund(id: Id, payment: Id, amount: int, refund: Id, fault: Fault) returns (ok: bool)
      modifies this`refunds, this`issued
      ensures Snapshot() == if fault == NotWritten then
                              old(Snapshot())
                            else
                              Perform(old(Snapshot()), RefundPayment(Refund(id, payment, amount, refund)))
      ensures ok == (fault == NoFault)
    {
      if fault == NotWritten {
        return false;
      }
      refunds := refunds + [Refund(id, payment, amount, refund)];
      issued := issued + {refund};
      return fault == NoFault;
    }
  }
}
