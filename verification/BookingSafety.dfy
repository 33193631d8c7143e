/**
 What holds of the booking service in every interleaving of requests, from the empty database on.
 */
module BookingSafety {
  import opened Common
  import opened BookingTypes
  import opened BookingStore
  import opened BookingProtocol
  import opened BookingInvariant

  // ------------------------------------------------------------------------------------------
  // Completed bookings and reviews
  // ------------------------------------------------------------------------------------------

  // A completed booking was paid, had a service person, and both its OTPs were redeemed; its row records
  // no cancellation, though a cancellation that lost the race may have had the gateway refund it.
  lemma CompletedBookingsAreEvidenced(acts: seq<Action>, id: Id)
    requires IsRun(Init, acts)
    requires id in After(Init, acts).db.bookings && After(Init, acts).db.bookings[id].status == Completed
    ensures var db := After(Init, acts).db;
            var b := db.bookings[id];
            && b.payment.Some? && b.person.Some? && UsedOtp(db, id, Arrival) && UsedOtp(db, id, Completion)
            && b.cancelledAt == None && b.cancelledBy == None && b.refundAmount == None && b.refundId == None
  {
    InitOk();
    RunKeepsInv(Init, acts);
    assert Evidenced(After(Init, acts).db, id);
  }

  // Every review is of a booking that is completed now and stays so, and no booking has two.
  lemma ReviewsAreOfCompletedBookings(acts: seq<Action>, more: seq<Action>)
    requires IsRun(Init, acts) && IsRun(After(Init, acts), more)
    ensures var db, later := After(Init, acts).db, After(After(Init, acts), more).db;
            && (forall i :: 0 <= i < |db.reviews| ==>
                  var id := db.reviews[i].booking;
                  && id in db.bookings && db.bookings[id].status == Completed
                  && id in later.bookings && later.bookings[id] == db.bookings[id]
                  && i < |later.reviews| && later.reviews[i] == db.reviews[i])
            && (forall i, j :: 0 <= i < j < |db.reviews| ==> db.reviews[i].booking != db.reviews[j].booking)
  {
    InitOk();
    RunKeepsInv(Init, acts);
    RunKeepsInv(After(Init, acts), more);
    var db, later := After(Init, acts).db, After(After(Init, acts), more).db;
    forall i | 0 <= i < |db.reviews|
      ensures var id := db.reviews[i].booking;
              id in later.bookings && later.bookings[id] == db.bookings[id] && later.reviews[i] == db.reviews[i]
    {
      assert Progressed(db.bookings[db.reviews[i].booking], later.bookings[db.reviews[i].booking]);
    }
  }

  // ------------------------------------------------------------------------------------------
  // The life of a booking
  // ------------------------------------------------------------------------------------------

  // Between any two points of any run a booking's identity is fixed, its status moves forward only,
  // payment and cancellation outcomes are written once, and a finished booking is frozen.
  lemma BookingsOnlyProgress(acts: seq<Action>, more: seq<Action>, id: Id)
    requires IsRun(Init, acts) && IsRun(After(Init, acts), more)
    requires id in After(Init, acts).db.bookings
    ensures id in After(After(Init, acts), more).db.bookings
    ensures Progressed(After(Init, acts).db.bookings[id], After(After(Init, acts), more).db.bookings[id])
  {
    InitOk();
    RunKeepsInv(Init, acts);
    RunKeepsInv(After(Init, acts), more);
  }

  function Changed(before: map<Id, Booking>, after: map<Id, Booking>, id: Id): nat {
    if id in before && id in after && before[id].status != after[id].status then 1 else 0
  }

  // How often a booking's status differs between consecutive states of a run.
  ghost function StatusChanges(s: State, acts: seq<Action>, id: Id): nat
    requires IsRun(s, acts)
  {
    if acts == [] then
      0
    else
      StatusChanges(s, acts[..|acts| - 1], id) +
      Changed(After(s, acts[..|acts| - 1]).db.bookings, After(s, acts).db.bookings, id)
  }

  // A booking that is not there yet counts as rank 0.
  function RankIn(bookings: map<Id, Booking>, id: Id): nat {
    if id in bookings then Rank(bookings[id].status) else 0
  }

  lemma ChangeRaisesRank(before: Db, after: Db, id: Id)
    requires Grown(before, after)
    ensures RankIn(before.bookings, id) + Changed(before.bookings, after.bookings, id) <= RankIn(after.bookings, id) <= 4
  {
    assert id in before.bookings ==> Progressed(before.bookings[id], after.bookings[id]);
  }

  // Every change raises the rank, so along a run a booking changes status at most four times.
  lemma {:induction false} StatusChangesAreBounded(acts: seq<Action>, id: Id)
    requires IsRun(Init, acts)
    ensures StatusChanges(Init, acts, id) <= RankIn(After(Init, acts).db.bookings, id) <= 4
  {
    if acts == [] {
    } else {
      var front := acts[..|acts| - 1];
      var before, after := After(Init, front).db, After(Init, acts).db;
      StatusChangesAreBounded(front, id);
      assert Grown(before, after) by {
        InitOk();
        RunKeepsInv(Init, front);
        StepGrows(After(Init, front), acts[|acts| - 1]);
      }
      ChangeRaisesRank(before, after, id);
    }
  }

  predicate CancelSucceeded(pc: Pc, id: Id) {
    pc == Done(CancelOk(id))
  }

  predicate ArrivalAccepted(pc: Pc, id: Id) {
    pc.Done? && pc.reply.OtpAccepted? && pc.reply.kind == Arrival && pc.reply.id == id
  }

  // Of all cancel and confirm-arrival requests on one booking, however they race, at most one succeeds.
  lemma OneRequestEndsConfirmation(acts: seq<Action>, p: Id, q: Id, id: Id)
    requires IsRun(Init, acts)
    requires p in After(Init, acts).requests && q in After(Init, acts).requests
    requires CancelSucceeded(After(Init, acts).requests[p], id) || ArrivalAccepted(After(Init, acts).requests[p], id)
    requires CancelSucceeded(After(Init, acts).requests[q], id) || ArrivalAccepted(After(Init, acts).requests[q], id)
    ensures p == q
  {
    InitOk();
    RunKeepsInv(Init, acts);
    assert Won(After(Init, acts).requests[p]) == Some(id) == Won(After(Init, acts).requests[q]);
  }

  // ------------------------------------------------------------------------------------------
  // Idempotent creation
  // ------------------------------------------------------------------------------------------

  // A key, even an empty one, is carried by at most one booking.
  lemma {:induction false} KeysAreUnique(acts: seq<Action>, x: Id, y: Id)
    requires IsRun(Init, acts)
    requires x in After(Init, acts).db.bookings && y in After(Init, acts).db.bookings
    requires After(Init, acts).db.bookings[x].key.Some?
    requires After(Init, acts).db.bookings[x].key == After(Init, acts).db.bookings[y].key
    ensures x == y
  {
    InitOk();
    RunKeepsInv(Init, acts);
  }

  // All successful replies for one non-empty key name the same booking, and the order each reply
  // hands out is the order stored with that booking.
  lemma CreateIsIdempotent(acts: seq<Action>, p: Id, q: Id)
    requires IsRun(Init, acts)
    requires p in After(Init, acts).requests && q in After(Init, acts).requests
    requires After(Init, acts).requests[p].Done? && After(Init, acts).requests[p].reply.Created?
    requires After(Init, acts).requests[q].Done? && After(Init, acts).requests[q].reply.Created?
    requires After(Init, acts).requests[p].reply.key == After(Init, acts).requests[q].reply.key
    requires Truthy(After(Init, acts).requests[p].reply.key)
    ensures var first, second := After(Init, acts).requests[p].reply, After(Init, acts).requests[q].reply;
            && first.id == second.id && first.order == second.order && first.order.Some?
            && first.id in After(Init, acts).db.bookings
            && After(Init, acts).db.bookings[first.id].order == first.order
  {
    InitOk();
    RunKeepsInv(Init, acts);
    var s := After(Init, acts);
    assert PcOk(s.db, s.requests[p]) && PcOk(s.db, s.requests[q]);
    KeysAreUnique(acts, s.requests[p].reply.id, s.requests[q].reply.id);
  }

  // Another user's booking carries the key; only keys that the service looks up count.
  ghost predicate KeyOfAnother(bookings: map<Id, Booking>, key: Option<string>, user: Id) {
    Truthy(key) && exists id :: id in bookings && bookings[id].key == key && bookings[id].user != user
  }

  lemma CreateAnswers(db: Db, pc: Pc, c: Choice, key: Option<string>, id: Id, order: Option<Id>)
    requires KeysUnique(db.bookings) && PcOk(db, pc) && !pc.Done? && Next(db, pc, c) == Done(Created(key, id, order))
    ensures pc.CreateStart? || pc.CreateInserting? || pc.CreateReading?
    ensures var after := Perform(db, PlanOf(db, pc, c).write).bookings;
            id in after && (after[id].user == pc.c.user <==> !KeyOfAnother(db.bookings, pc.c.key, pc.c.user))
  {
    hide Intended;
    if pc.CreateStart? || pc.CreateOrdering? || pc.CreateInserting? || pc.CreateReading? {
      CreatePlan(db, pc, c);
    } else {
      OthersCreateNothing(db, pc, c);
    }
  }

  lemma OthersCreateNothing(db: Db, pc: Pc, c: Choice)
    requires !pc.CreateStart? && !pc.CreateOrdering? && !pc.CreateInserting? && !pc.CreateReading? && !pc.Done?
    ensures Next(db, pc, c).Done? ==> !Next(db, pc, c).reply.Created?
  {
    hide Succeeds;
  }

  // Keys are shared by all users: in every interleaving the booking a create request is answered with
  // belongs to the requesting user if and only if no booking of another user carries the key when the
  // request is answered.
  lemma CreatedBookingIsOwnIff(acts: seq<Action>, a: Action, key: Option<string>, id: Id, order: Option<Id>)
    requires IsRun(Init, acts) && Enabled(After(Init, acts), a) && a.Advance?
    requires Step(After(Init, acts), a).requests[a.request] == Done(Created(key, id, order))
    ensures var pc := After(Init, acts).requests[a.request]; pc.CreateStart? || pc.CreateInserting? || pc.CreateReading?
    ensures var args := After(Init, acts).requests[a.request].c;
            var before, after := After(Init, acts).db.bookings, Step(After(Init, acts), a).db.bookings;
            id in after && (after[id].user == args.user <==> !KeyOfAnother(before, args.key, args.user))
  {
    hide PlanOf, PcOk, Perform;
    InitOk();
    RunKeepsInv(Init, acts);
    var s := After(Init, acts);
    StepIsMove(s, a.request, a.choice);
    CreateAnswers(s.db, s.requests[a.request], a.choice, key, id, order);
  }

  lemma WhoInserts(db: Db, pc: Pc, c: Choice)
    requires !pc.Done?
    ensures PlanOf(db, pc, c).write.InsertBooking? ==>
              pc.CreateInserting? && PlanOf(db, pc, c) == PlanCreate(db, pc, c)
  {
  }

  lemma OnlyInsertsAdd(db: Db, w: Write, id: Id)
    requires id !in db.bookings && id in Perform(db, w).bookings
    ensures w.InsertBooking? && w.id == id && Perform(db, w).bookings[id] == w.row
  {
  }

  // A booking appears only as the insert of a create request: it is of the requesting user, for the slot,
  // provider and price of that request, awaits payment of an order no other booking has, and is what
  // the request is answered with.
  lemma NewBookingsAreAsRequested(acts: seq<Action>, a: Action, id: Id)
    requires IsRun(Init, acts) && Enabled(After(Init, acts), a)
    requires id !in After(Init, acts).db.bookings && id in Step(After(Init, acts), a).db.bookings
    ensures a.Advance? && After(Init, acts).requests[a.request].CreateInserting?
    ensures var s, t := After(Init, acts), Step(After(Init, acts), a);
            var args, b := s.requests[a.request].c, t.db.bookings[id];
            && b.user == args.user && b.provider == args.provider && b.key == args.key && b.amount == args.price
            && b.slotStart == args.slotStart && b.slotEnd == args.slotEnd
            && b.status == PendingPayment && b.payment.None? && b.order.Some? && OrderUnused(s.db, b.order.value)
            && t.requests[a.request] == Done(Created(args.key, id, b.order))
  {
    InitOk();
    RunKeepsInv(Init, acts);
    var s := After(Init, acts);
    if a.Advance? {
      var pc := s.requests[a.request];
      OnlyInsertsAdd(s.db, PlanOf(s.db, pc, a.choice).write, id);
      WhoInserts(s.db, pc, a.choice);
      assert PcOk(s.db, pc);
    }
  }

  // Whenever a create request ends in a rethrown unique violation, its key was the empty string.
  lemma OnlyEmptyKeysAreRethrown(acts: seq<Action>, p: Id)
    requires IsRun(Init, acts)
    requires p in After(Init, acts).requests
    requires After(Init, acts).requests[p].Done? && After(Init, acts).requests[p].reply.CreateRethrown?
    ensures After(Init, acts).requests[p].reply.key == Some("")
  {
    InitOk();
    RunKeepsInv(Init, acts);
    assert PcOk(After(Init, acts).db, After(Init, acts).requests[p]);
  }

  lemma InsertOutcome(db: Db, args: CreateArgs, order: Id, c: Choice)
    requires !OrderTaken(db.bookings, Some(order))
    ensures Next(db, CreateInserting(args, order), c) == Done(CreateRethrown(args.key))
            <==> args.key == Some("") && KeyTaken(db.bookings, args.key)
  {
    hide Intended;
    CreatePlan(db, CreateInserting(args, order), c);
  }

  // The insert of a create request is rethrown exactly when its key is empty and already stored.
  lemma InsertIsRethrownForStoredEmptyKey(acts: seq<Action>, p: Id, c: Choice)
    requires IsRun(Init, acts) && Enabled(After(Init, acts), Advance(p, c))
    requires After(Init, acts).requests[p].CreateInserting?
    ensures var s := After(Init, acts);
            var args := s.requests[p].c;
            Step(s, Advance(p, c)).requests[p] == Done(CreateRethrown(args.key))
            <==> args.key == Some("") && KeyTaken(s.db.bookings, args.key)
  {
    hide PlanOf, DbOk;
    InitOk();
    RunKeepsInv(Init, acts);
    var s := After(Init, acts);
    assert PcOk(s.db, s.requests[p]);
    StepIsMove(s, p, c);
    InsertOutcome(s.db, s.requests[p].c, s.requests[p].gatewayOrder, c);
  }

  // ------------------------------------------------------------------------------------------
  // OTPs
  // ------------------------------------------------------------------------------------------

  // A booking is issued at most one completion OTP.
  lemma OneCompletionOtp(acts: seq<Action>, j: nat, k: nat, id: Id)
    requires IsRun(Init, acts)
    requires OtpAt(After(Init, acts).db, j, id, Completion) && OtpAt(After(Init, acts).db, k, id, Completion)
    ensures j == k
  {
    InitOk();
    RunKeepsInv(Init, acts);
  }

  // A booking awaits verification and its completion OTP has expired unused.
  predicate Stuck(db: Db, id: Id, k: nat) {
    && id in db.bookings && db.bookings[id].status == PendingCompletionVerification
    && OtpAt(db, k, id, Completion) && db.otps[k].usedAt.None? && db.otps[k].expiresAt < db.now
  }

  // Only a request that holds a redeemed OTP completes a booking, only one that found it redeems it.
  lemma OtpWrites(db: Db, pc: Pc, c: Choice)
    ensures PlanOf(db, pc, c).write.Complete? ==> pc.OtpWriting? && pc.id == PlanOf(db, pc, c).write.id && pc.kind == Completion
    ensures PlanOf(db, pc, c).write.MarkUsed? ==>
              pc.OtpMarking? && PlanOf(db, pc, c).write.index < |db.otps| &&
              db.otps[PlanOf(db, pc, c).write.index].expiresAt >= db.now
    ensures PlanOf(db, pc, c).write.InsertOtp? ==> PlanOf(db, pc, c).write.otp.usedAt == None
    ensures PlanOf(db, pc, c).write.InsertBooking? ==> PlanOf(db, pc, c).write.id == c.newId
  {
  }

  lemma StuckAfterWrite(db: Db, w: Write, id: Id, k: nat)
    requires Stuck(db, id, k)
    requires w != Complete(id) && w != MarkUsed(k)
    requires w.InsertBooking? ==> w.id !in db.bookings
    ensures Stuck(Perform(db, w), id, k)
  {
  }

  lemma StuckAfterStep(s: State, a: Action, id: Id, k: nat)
    requires Inv(s) && Enabled(s, a) && Stuck(s.db, id, k)
    ensures Stuck(Step(s, a).db, id, k)
  {
    if a.Advance? {
      var pc := s.requests[a.request];
      var w := PlanOf(s.db, pc, a.choice).write;
      OtpWrites(s.db, pc, a.choice);
      assert w != Complete(id) by {
        NoRequestCompletes(s, a.request, id, k);
      }
      StuckAfterWrite(s.db, w, id, k);
    }
  }

  lemma NoRequestCompletes(s: State, r: Id, id: Id, k: nat)
    requires Inv(s) && Stuck(s.db, id, k) && r in s.requests
    ensures !(s.requests[r].OtpWriting? && s.requests[r].id == id && s.requests[r].kind == Completion)
  {
    assert PcOk(s.db, s.requests[r]);
  }

  lemma {:induction false} StuckAfterRun(s: State, acts: seq<Action>, id: Id, k: nat)
    requires Inv(s) && IsRun(s, acts) && Stuck(s.db, id, k)
    ensures Stuck(After(s, acts).db, id, k)
  {
    if acts == [] {
    } else {
      StuckAfterRun(s, acts[..|acts| - 1], id, k);
      RunKeepsInv(s, acts[..|acts| - 1]);
      StuckAfterStep(After(s, acts[..|acts| - 1]), acts[|acts| - 1], id, k);
    }
  }

  // Such a booking never changes status again, whatever requests follow.
  lemma ExpiredCompletionOtpIsFinal(acts: seq<Action>, more: seq<Action>, id: Id, k: nat)
    requires IsRun(Init, acts) && IsRun(After(Init, acts), more)
    requires Stuck(After(Init, acts).db, id, k)
    ensures id in After(After(Init, acts), more).db.bookings
    ensures After(After(Init, acts), more).db.bookings[id].status == PendingCompletionVerification
  {
    InitOk();
    RunKeepsInv(Init, acts);
    StuckAfterRun(After(Init, acts), more, id, k);
  }

  // No OTP is redeemed after it expired.
  ghost predicate InTime(db: Db) {
    forall k :: 0 <= k < |db.otps| && db.otps[k].usedAt.Some? ==> db.otps[k].usedAt.value <= db.otps[k].expiresAt
  }

  lemma {:induction false} OtpsAreRedeemedInTime(acts: seq<Action>)
    requires IsRun(Init, acts)
    ensures InTime(After(Init, acts).db)
  {
    if acts == [] {
    } else {
      var s, a := After(Init, acts[..|acts| - 1]), acts[|acts| - 1];
      OtpsAreRedeemedInTime(acts[..|acts| - 1]);
      if a.Advance? {
        OtpWrites(s.db, s.requests[a.request], a.choice);
        WriteKeepsInTime(s.db, PlanOf(s.db, s.requests[a.request], a.choice).write);
      }
    }
  }

  lemma WriteKeepsInTime(db: Db, w: Write)
    requires InTime(db)
    requires w.MarkUsed? ==> w.index < |db.otps| && db.otps[w.index].expiresAt >= db.now
    requires w.InsertOtp? ==> w.otp.usedAt == None
    ensures InTime(Perform(db, w))
  {
  }

  // ------------------------------------------------------------------------------------------
  // Refunds
  // ------------------------------------------------------------------------------------------

  // Whatever races, each refund the gateway carries out is of the payment captured for that booking
  // and does not exceed the booking's amount.
  lemma RefundsFollowCaptures(acts: seq<Action>, i: nat)
    requires IsRun(Init, acts) && i < |After(Init, acts).db.refunds|
    ensures var db := After(Init, acts).db;
            var r := db.refunds[i];
            && r.booking in db.bookings && db.bookings[r.booking].confirmedAt.Some?
            && db.bookings[r.booking].payment == Some(r.payment)
            && 0 < r.amount <= db.bookings[r.booking].amount
  {
    InitOk();
    RunKeepsInv(Init, acts);
    assert RefundOk(After(Init, acts).db, After(Init, acts).db.refunds[i]);
  }

  // Waiting never raises the refund a user gets for cancelling.
  lemma RefundFallsWithTime(amount: int, slotStart: int, now: int, later: int)
    requires amount >= 0 && now <= later
    ensures UserCancelRefund(amount, slotStart, later) <= UserCancelRefund(amount, slotStart, now) <= amount
  {
  }
}
