/**
 The request handlers of the booking service, run without interruption.  Each handler returns, as a
 ghost, the steps by which the machine of BookingProtocol serves the same request to the same end, so
 everything proved about runs of the machine holds of the handlers.
 */
module BookingService {
  import opened Common
  import opened BookingTypes
  import opened BookingStore
  import opened BookingProtocol
  import opened BookingInvariant
  import opened BookingRepository
  import opened BookingServing
  import opened PaymentWebhook

  class BookingHandlers {
    const db: BookingDatabase

    constructor (db: BookingDatabase)
      ensures this.db == db
    {
      this.db := db;
    }

    method CancelByUser(id: Id, caller: Id, gateway: Fault, refundId: Id, fault: Fault)
      returns (reply: Reply, ghost steps: seq<Choice>)
      requires refundId !in db.issued
      modifies db
      ensures Served(old(db.Snapshot()), CancelStart(id, ByUser, caller), steps, db.Snapshot(), Done(reply))
      ensures gateway == NoFault && fault == NoFault ==> AllFaultless(steps)
      ensures fault != NotReported && reply != CancelOk(id) ==> db.bookings == old(db.bookings)
    {
      hide Served;
      ghost var before, entry := db.Snapshot(), CancelStart(id, ByUser, caller);
      ghost var c := Quiet(before);
      CancelStarts(before, entry, c);
      steps := [c];
      if id !in db.bookings {
        return NotFound, steps;
      }
      var booking := db.bookings[id];
      if booking.user != caller {
        return Forbidden, steps;
      }
      if booking.status != Confirmed && booking.status != PendingPayment {
        if booking.status == Cancelled {
          return Conflict, steps;
        }
        return BadRequest, steps;
      }
      var refundAmount := UserCancelRefund(booking.amount, booking.slotStart, db.now);
      var refund: Option<Id> := None;
      if refundAmount > 0 && booking.payment.Some? {
        ghost var env := Choice(refundId, true, "", gateway);
        RefundServes(before, entry, steps, before, id, ByUser, booking.payment.value, refundAmount, env);
        steps := steps + [env];
        var refunded := db.CreateRazorpayRefund(id, booking.payment.value, refundAmount, refundId, gateway);
        if !refunded {
          return BadRequest, steps;
        }
        refund := Some(refundId);
      }
      var recorded := if refundAmount > 0 then Some(refundAmount) else None;
      c := Quiet(db.Snapshot());
      c := c.(fault := fault);
      CancelServes(before, entry, steps, db.Snapshot(), id, ByUser, recorded, refund, c);
      steps := steps + [c];
      var updated := db.UpdateCancelled(id, ByUser, recorded, refund, fault);
      if !updated {
        return Conflict, steps;
      }
      return CancelOk(id), steps;
    }

    method CancelByProvider(id: Id, caller: Id, gateway: Fault, refundId: Id, fault: Fault)
      returns (reply: Reply, ghost steps: seq<Choice>)
      requires refundId !in db.issued
      modifies db
      ensures Served(old(db.Snapshot()), CancelStart(id, ByProvider, caller), steps, db.Snapshot(), Done(reply))
      ensures gateway == NoFault && fault == NoFault ==> AllFaultless(steps)
      ensures fault != NotReported && reply != CancelOk(id) ==> db.bookings == old(db.bookings)
    {
      hide Served;
      ghost var before, entry := db.Snapshot(), CancelStart(id, ByProvider, caller);
      ghost var c := Quiet(before);
      CancelStarts(before, entry, c);
      steps := [c];
      if id !in db.bookings {
        return NotFound, steps;
      }
      var booking := db.bookings[id];
      if booking.provider != caller {
        return Forbidden, steps;
      }
      if booking.status != Confirmed && booking.status != PendingPayment {
        if booking.status == Cancelled {
          return Conflict, steps;
        }
        return BadRequest, steps;
      }
      var refund: Option<Id> := None;
      if booking.payment.Some? {
        ghost var env := Choice(refundId, true, "", gateway);
        RefundServes(before, entry, steps, before, id, ByProvider, booking.payment.value, booking.amount, env);
        steps := steps + [env];
        var refunded := db.CreateRazorpayRefund(id, booking.payment.value, booking.amount, refundId, gateway);
        if !refunded {
          return BadRequest, steps;
        }
        refund := Some(refundId);
      }
      c := Quiet(db.Snapshot());
      c := c.(fault := fault);
      CancelServes(before, entry, steps, db.Snapshot(), id, ByProvider, Some(booking.amount), refund, c);
      steps := steps + [c];
      var updated := db.UpdateCancelled(id, ByProvider, Some(booking.amount), refund, fault);
      if !updated {
        return Conflict, steps;
      }
      return CancelOk(id), steps;
    }

    // The answer to a repeated request: the booking an earlier one stored under the same key.
    method AnswerStored(args: CreateArgs, ghost c: Choice) returns (answer: Option<Reply>)
      requires UniqueColumns(db.bookings) && args.price >= MIN_AMOUNT
      ensures PlanCreate(db.Snapshot(), CreateStart(args), c)
              == Go(if answer.Some? then Done(answer.value) else CreateOrdering(args))
    {
      if args.key.Some? && args.key.value != "" {
        var existing := db.FindByIdempotencyKey(args.key);
        if existing.Some? {
          var b := db.bookings[existing.value];
          if b.status == PendingPayment && b.order.Some? {
            return Some(Created(args.key, existing.value, b.order));
          }
          if b.status == Confirmed || b.status == Cancelled {
            return Some(Created(args.key, existing.value, b.order));
          }
        }
      }
      return None;
    }

    // orderId is the gateway's id for a new order, bookingId the database's id for a new row.
    method Create(args: CreateArgs, gatewayOk: bool, orderId: Id, bookingId: Id)
      returns (reply: Reply, ghost steps: seq<Choice>)
      requires UniqueColumns(db.bookings)
      requires orderId !in db.issued && bookingId !in db.issued && orderId != bookingId
      modifies db
      ensures Served(old(db.Snapshot()), CreateStart(args), steps, db.Snapshot(), Done(reply)) && AllFaultless(steps)
    {
      hide Served;
      ghost var before, entry := db.Snapshot(), CreateStart(args);
      ghost var c := Quiet(before);
      CreateStarts(before, entry, c);
      steps := [c];
      if args.price < MIN_AMOUNT {
        return BadRequest, steps;
      }
      var answer := AnswerStored(args, c);
      if answer.Some? {
        return answer.value, steps;
      }
      ghost var env := Choice(orderId, gatewayOk, "", NoFault);
      OneMoreCreate(before, entry, steps, before, CreateOrdering(args), env);
      steps := steps + [env];
      if !gatewayOk {
        return InternalError, steps;
      }
      db.CreateRazorpayOrder(orderId);
      reply, steps := InsertOrReadBack(args, orderId, bookingId, before, steps);
    }

    // Stores the booking, or answers with the one stored under the same key by an earlier request.
    method InsertOrReadBack(args: CreateArgs, orderId: Id, bookingId: Id, ghost before: Db, ghost start: seq<Choice>)
      returns (reply: Reply, ghost steps: seq<Choice>)
      requires UniqueColumns(db.bookings) && bookingId !in db.issued
      requires Served(before, CreateStart(args), start, db.Snapshot(), CreateInserting(args, orderId))
      requires AllFaultless(start)
      modifies db
      ensures Served(before, CreateStart(args), steps, db.Snapshot(), Done(reply)) && AllFaultless(steps)
    {
      hide Served;
      ghost var at := db.Snapshot();
      ghost var env := Choice(bookingId, true, "", NoFault);
      OneMoreCreate(before, CreateStart(args), start, at, CreateInserting(args, orderId), env);
      steps := start + [env];
      var row := NewBooking(args, orderId);
      var ok := db.Create(bookingId, row);
      if ok {
        return Created(args.key, bookingId, Some(orderId)), steps;
      }
      if args.key.Some? && args.key.value != "" && (exists x :: x in db.bookings && db.bookings[x].key == args.key) {
        ghost var c := Quiet(at);
        OneMoreCreate(before, CreateStart(args), steps, at, CreateReading(args, orderId), c);
        steps := steps + [c];
        var existing := db.FindByIdempotencyKey(args.key);
        if existing.Some? {
          var stored := db.bookings[existing.value].order;
          return Created(args.key, existing.value, if stored.Some? then stored else Some(orderId)), steps;
        }
      }
      return CreateRethrown(args.key), steps;
    }

    method HandlePaymentCaptured(order: Id, payment: Id, fault: Fault, ghost before: Db, ghost entry: Pc, ghost start: seq<Choice>)
      returns (ghost steps: seq<Choice>)
      requires UniqueColumns(db.bookings)
      requires Served(before, entry, start, db.Snapshot(), HookFinding(PaymentCaptured(Some(order), Some(payment))))
      requires AllFaultless(start)
      modifies db`bookings
      ensures Served(before, entry, steps, db.Snapshot(), Done(HookOk))
      ensures fault == NoFault ==> AllFaultless(steps)
      ensures db.bookings
              == if fault == NotWritten then old(db.bookings) else Settle(old(db.bookings), PaymentCaptured(Some(order), Some(payment)), db.now)
    {
      hide Served;
      ghost var payload := PaymentCaptured(Some(order), Some(payment));
      ghost var c := Quiet(db.Snapshot());
      OneMoreHook(before, entry, start, db.Snapshot(), HookFinding(payload), c);
      steps := start + [c];
      var found := db.FindByRazorpayOrderId(Some(order));
      if found.None? {
        return steps;
      }
      c := c.(fault := fault);
      CaptureServes(before, entry, steps, db.Snapshot(), found.value, Some(order), payment, c);
      steps := steps + [c];
      var updated := db.UpdatePaymentCaptured(found.value, payment, fault);
    }

    method HandlePaymentFailed(order: Id, fault: Fault, ghost before: Db, ghost entry: Pc, ghost start: seq<Choice>)
      returns (ghost steps: seq<Choice>)
      requires UniqueColumns(db.bookings)
      requires Served(before, entry, start, db.Snapshot(), HookFinding(PaymentFailure(Some(order))))
      requires AllFaultless(start)
      modifies db`bookings
      ensures Served(before, entry, steps, db.Snapshot(), Done(HookOk))
      ensures fault == NoFault ==> AllFaultless(steps)
      ensures db.bookings
              == if fault == NotWritten then old(db.bookings) else Settle(old(db.bookings), PaymentFailure(Some(order)), db.now)
    {
      hide Served;
      ghost var payload := PaymentFailure(Some(order));
      ghost var c := Quiet(db.Snapshot());
      OneMoreHook(before, entry, start, db.Snapshot(), HookFinding(payload), c);
      steps := start + [c];
      var found := db.FindByRazorpayOrderId(Some(order));
      if found.None? {
        return steps;
      }
      c := c.(fault := fault);
      FailPaymentServes(before, entry, steps, db.Snapshot(), found.value, Some(order), c);
      steps := steps + [c];
      var updated := db.UpdatePaymentFailed(found.value, fault);
    }

    // Claims the event, then acts on it if it settles a payment.
    method HandleRazorpay(event: string, payload: PaymentEvent, fault: Fault)
      returns (reply: Reply, ghost steps: seq<Choice>)
      requires UniqueColumns(db.bookings)
      modifies db`events, db`bookings
      ensures Served(old(db.Snapshot()), HookStart(event, payload), steps, db.Snapshot(), Done(reply))
      ensures fault == NoFault ==> AllFaultless(steps)
      ensures fault != NotWritten ==>
                Tables(db.bookings, db.events)
                == Deliver(Tables(old(db.bookings), old(db.events)), Delivery(db.now, event, payload))
    {
      hide Served;
      ghost var before, entry := db.Snapshot(), HookStart(event, payload);
      ghost var c := Quiet(before);
      NothingServed(before, entry);
      OneMoreHook(before, entry, [], before, entry, c);
      steps := [] + [c];
      reply := HookOk;
      var claimed := db.CreateStrict(event);
      if !claimed {
        return reply, steps;
      }
      match payload {
        case PaymentCaptured(Some(order), Some(payment)) =>
          steps := HandlePaymentCaptured(order, payment, fault, before, entry, steps);
        case PaymentFailure(Some(order)) =>
          steps := HandlePaymentFailed(order, fault, before, entry, steps);
        case _ =>
          OneMoreHook(before, entry, steps, db.Snapshot(), HookFinding(payload), c);
          steps := steps + [c];
      }
    }

    method AssignServicePerson(id: Id, caller: Id, person: Id, digest: string, fault: Fault)
      returns (reply: Reply, ghost steps: seq<Choice>)
      modifies db`bookings, db`otps
      ensures Served(old(db.Snapshot()), AssignStart(id, caller, person), steps, db.Snapshot(), Done(reply))
      ensures fault == NoFault ==> AllFaultless(steps)
      ensures reply != AssignOk(id) ==> db.otps == old(db.otps)
      ensures fault != NotReported && reply != AssignOk(id) ==> db.bookings == old(db.bookings)
    {
      hide Served;
      ghost var before, entry := db.Snapshot(), AssignStart(id, caller, person);
      ghost var c := Quiet(before);
      AssignStarts(before, entry, c);
      steps := [c];
      if id !in db.bookings {
        return NotFound, steps;
      }
      if db.bookings[id].provider != caller {
        return Forbidden, steps;
      }
      if db.bookings[id].status != Confirmed {
        return BadRequest, steps;
      }
      c := c.(fault := fault);
      AssignServes(before, entry, steps, before, id, person, c);
      steps := steps + [c];
      var updated := db.UpdateAssignedServicePerson(id, person, fault);
      if !updated {
        return Conflict, steps;
      }
      ghost var env := Choice(c.newId, true, digest, NoFault);
      IssueServes(before, entry, steps, db.Snapshot(), Arrival, id, env);
      steps := steps + [env];
      db.CreateOtp(id, Arrival, digest);
      return AssignOk(id), steps;
    }

    method MarkComplete(id: Id, caller: Id, digest: string, fault: Fault)
      returns (reply: Reply, ghost steps: seq<Choice>)
      modifies db`bookings, db`otps
      ensures Served(old(db.Snapshot()), MarkStart(id, caller), steps, db.Snapshot(), Done(reply))
      ensures fault == NoFault ==> AllFaultless(steps)
      ensures reply != MarkOk(id) ==> db.otps == old(db.otps)
      ensures fault != NotReported && reply != MarkOk(id) ==> db.bookings == old(db.bookings)
    {
      hide Served;
      ghost var before, entry := db.Snapshot(), MarkStart(id, caller);
      ghost var c := Quiet(before);
      MarkStarts(before, entry, c);
      steps := [c];
      if id !in db.bookings {
        return NotFound, steps;
      }
      if db.bookings[id].provider != caller {
        return Forbidden, steps;
      }
      if db.bookings[id].status != ArrivalConfirmed {
        return BadRequest, steps;
      }
      c := c.(fault := fault);
      MarkServes(before, entry, steps, before, id, c);
      steps := steps + [c];
      var updated := db.UpdatePendingCompletionVerification(id, fault);
      if !updated {
        return Conflict, steps;
      }
      ghost var env := Choice(c.newId, true, digest, NoFault);
      IssueServes(before, entry, steps, db.Snapshot(), Completion, id, env);
      steps := steps + [env];
      db.CreateOtp(id, Completion, digest);
      return MarkOk(id), steps;
    }

    // Finds the newest active OTP, checks it against the submitted digest and marks it used.
    method VerifyOtp(kind: OtpKind, id: Id, digest: string, ghost before: Db, ghost entry: Pc, ghost c: Choice,
                     ghost start: seq<Choice>)
      returns (index: Option<nat>, ghost steps: seq<Choice>)
      requires Served(before, entry, start, db.Snapshot(), OtpFinding(kind, id, digest)) && c.newId !in db.issued
      requires AllFaultless(start) && c.fault == NoFault
      modifies db`otps
      ensures AllFaultless(steps)
      ensures Served(before, entry, steps, db.Snapshot(),
                     if index.Some? then OtpWriting(kind, id, index.value, digest) else Done(BadRequest))
      ensures index.None? ==> db.otps == old(db.otps)
    {
      hide Served;
      var found := LatestActive(db.otps, id, kind, db.now);
      OneMoreOtp(before, entry, start, db.Snapshot(), OtpFinding(kind, id, digest), c);
      steps := start + [c];
      if found.None? {
        return None, steps;
      }
      var k := found.value;
      OneMoreOtp(before, entry, steps, db.Snapshot(), OtpMarking(kind, id, k, digest), c);
      steps := steps + [c];
      if db.otps[k].expiresAt < db.now || db.otps[k].digest != digest {
        return None, steps;
      }
      db.MarkOtpUsed(k);
      return Some(k), steps;
    }

    method ConfirmArrivalWithOtp(id: Id, caller: Id, digest: string, fault: Fault)
      returns (reply: Reply, ghost steps: seq<Choice>)
      modifies db`bookings, db`otps
      ensures Served(old(db.Snapshot()), OtpStart(Arrival, id, caller, digest), steps, db.Snapshot(), Done(reply))
      ensures fault == NoFault ==> AllFaultless(steps)
      ensures fault != NotReported && !reply.OtpAccepted? ==> db.bookings == old(db.bookings)
    {
      hide Served;
      ghost var before, entry := db.Snapshot(), OtpStart(Arrival, id, caller, digest);
      ghost var c := Quiet(before);
      OtpStarts(before, entry, c);
      steps := [c];
      if id !in db.bookings {
        return NotFound, steps;
      }
      if db.bookings[id].provider != caller {
        return Forbidden, steps;
      }
      var index: Option<nat>;
      index, steps := VerifyOtp(Arrival, id, digest, before, entry, c, steps);
      if index.None? {
        return BadRequest, steps;
      }
      c := c.(fault := fault);
      ConfirmServes(before, entry, steps, db.Snapshot(), id, index.value, digest, c);
      steps := steps + [c];
      var updated := db.UpdateArrivalConfirmed(id, fault);
      if !updated {
        return BadRequest, steps;
      }
      return OtpAccepted(Arrival, id, index.value, digest), steps;
    }

    method VerifyCompletion(id: Id, caller: Id, digest: string, fault: Fault)
      returns (reply: Reply, ghost steps: seq<Choice>)
      modifies db`bookings, db`otps
      ensures Served(old(db.Snapshot()), OtpStart(Completion, id, caller, digest), steps, db.Snapshot(), Done(reply))
      ensures fault == NoFault ==> AllFaultless(steps)
      ensures fault != NotReported && !reply.OtpAccepted? ==> db.bookings == old(db.bookings)
    {
      hide Served;
      ghost var before, entry := db.Snapshot(), OtpStart(Completion, id, caller, digest);
      ghost var c := Quiet(before);
      OtpStarts(before, entry, c);
      steps := [c];
      if id !in db.bookings {
        return NotFound, steps;
      }
      if db.bookings[id].user != caller {
        return Forbidden, steps;
      }
      var index: Option<nat>;
      index, steps := VerifyOtp(Completion, id, digest, before, entry, c, steps);
      if index.None? {
        return BadRequest, steps;
      }
      c := c.(fault := fault);
      CompleteServes(before, entry, steps, db.Snapshot(), id, index.value, digest, c);
      steps := steps + [c];
      var updated := db.UpdateCompleted(id, fault);
      if !updated {
        return BadRequest, steps;
      }
      return OtpAccepted(Completion, id, index.value, digest), steps;
    }

    method CreateReview(id: Id, caller: Id, rating: int) returns (reply: Reply, ghost steps: seq<Choice>)
      modifies db`reviews
      ensures Served(old(db.Snapshot()), ReviewStart(id, caller, rating), steps, db.Snapshot(), Done(reply))
      ensures AllFaultless(steps)
      ensures reply != ReviewOk(id) ==> db.reviews == old(db.reviews)
    {
      hide Served;
      ghost var before, entry := db.Snapshot(), ReviewStart(id, caller, rating);
      ghost var c := Quiet(before);
      ReviewStarts(before, entry, c);
      steps := [c];
      if id !in db.bookings {
        return NotFound, steps;
      }
      if db.bookings[id].user != caller {
        return Forbidden, steps;
      }
      if db.bookings[id].status != Completed {
        return BadRequest, steps;
      }
      if rating < 1 || rating > 5 {
        return BadRequest, steps;
      }
      OneMoreReview(before, entry, steps, before, ReviewFinding(id, caller, rating), c);
      steps := steps + [c];
      if Reviewed(db.reviews, id) {
        return Conflict, steps;
      }
      OneMoreReview(before, entry, steps, before, ReviewInserting(id, caller, rating), c);
      steps := steps + [c];
      var ok := db.CreateReview(Review(id, caller, rating));
      reply := if ok then ReviewOk(id) else InternalError;
    }
  }
}
