/**
 What each step of a request does to the tables and where it leaves the request, spelled out in the columns
 and conditions the repositories name.
 */
module BookingTransitions {
  import opened Common
  import opened BookingTypes
  import opened BookingStore
  import opened BookingProtocol
  import opened BookingInvariant

  // ------------------------------------------------------------------------------------------
  // Status updates
  // ------------------------------------------------------------------------------------------

  predicate Writes(pc: Pc) {
    pc.CancelWriting? || pc.HookWriting? || pc.AssignWriting? || pc.MarkWriting? || pc.OtpWriting?
  }

  // The row the request makes of its booking's row, if the status allows it.
  function Transition(b: Booking, pc: Pc, now: int): Option<Booking>
    requires Writes(pc)
  {
    match pc
    case HookWriting(_, PaymentCaptured(_, Some(payment))) =>
      if b.status != PendingPayment then
        None
      else
        Some(b.(status := Confirmed, payment := Some(payment), confirmedAt := Some(now)))
    case HookWriting(_, _) => if b.status != PendingPayment then None else Some(b.(status := PaymentFailed))
    case CancelWriting(_, who, recorded, refund) =>
      if b.status != PendingPayment && b.status != Confirmed then
        None
      else
        Some(b.(status := Cancelled, cancelledAt := Some(now), cancelledBy := Some(who), refundAmount := recorded,
                refundId := refund))
    case AssignWriting(_, person) => if b.status != Confirmed then None else Some(b.(person := Some(person)))
    case MarkWriting(_) =>
      if b.status != ArrivalConfirmed then None else Some(b.(status := PendingCompletionVerification))
    case OtpWriting(Arrival, _, _, _) =>
      if b.status != Confirmed then None else Some(b.(status := ArrivalConfirmed, arrivalConfirmedAt := Some(now)))
    case OtpWriting(Completion, _, _, _) =>
      if b.status != PendingCompletionVerification then None else Some(b.(status := Completed, completedAt := Some(now)))
  }

  function Success(pc: Pc): Pc
    requires Writes(pc)
  {
    match pc
    case HookWriting(_, _) => Done(HookOk)
    case CancelWriting(id, _, _, _) => Done(CancelOk(id))
    case AssignWriting(id, _) => OtpIssuing(Arrival, id)
    case MarkWriting(id) => OtpIssuing(Completion, id)
    case OtpWriting(kind, id, k, digest) => Done(OtpAccepted(kind, id, k, digest))
  }

  function Failure(pc: Pc): Reply
    requires Writes(pc)
  {
    match pc
    case HookWriting(_, _) => HookOk
    case OtpWriting(_, _, _, _) => BadRequest
    case _ => Conflict
  }

  // An update changes its booking's row exactly as the table says and nothing else, unless a fault prevents
  // it; and it is reported as a success if and only if it took effect and no fault struck.
  lemma WritingStep(s: State, r: Id, c: Choice)
    requires Enabled(s, Advance(r, c)) && Writes(s.requests[r])
    ensures var pc, rows := s.requests[r], s.db.bookings;
            var to := if pc.id in rows then Transition(rows[pc.id], pc, s.db.now) else None;
            Step(s, Advance(r, c)) ==
            State(s.db.(bookings := if to.Some? && c.fault != NotWritten then rows[pc.id := to.value] else rows),
                  s.requests[r := if to.Some? && c.fault == NoFault then Success(pc) else Done(Failure(pc))])
  {
    hide Intended;
    var pc := s.requests[r];
    StepIsMove(s, r, c);
    if pc.CancelWriting? {
      CancelPlan(s.db, pc, c);
    } else if pc.HookWriting? {
      HookPlan(s.db, pc, c);
    } else if pc.AssignWriting? {
      AssignPlan(s.db, pc, c);
    } else if pc.MarkWriting? {
      MarkPlan(s.db, pc, c);
    } else {
      OtpPlan(s.db, pc, c);
    }
  }

  // Only these updates change a row.
  lemma OtherStepsKeepRows(s: State, r: Id, c: Choice, id: Id)
    requires Inv(s) && Enabled(s, Advance(r, c)) && !Writes(s.requests[r]) && id in s.db.bookings
    ensures id in Step(s, Advance(r, c)).db.bookings && Step(s, Advance(r, c)).db.bookings[id] == s.db.bookings[id]
  {
    hide PlanOf, Perform, DbOk, PcOk;
    StepIsMove(s, r, c);
    PlanIsSound(s.db, s.requests[r], c);
    OthersUpdateNothing(s.db, s.requests[r], c);
    NoUpdateKeepsRow(s.db, PlanOf(s.db, s.requests[r], c).write, id);
  }

  lemma OthersUpdateNothing(db: Db, pc: Pc, c: Choice)
    requires !Writes(pc)
    ensures !IsUpdate(PlanOf(db, pc, c).write)
  {
  }

  lemma NoUpdateKeepsRow(db: Db, w: Write, id: Id)
    requires !IsUpdate(w) && (w.InsertBooking? ==> w.id !in db.bookings) && id in db.bookings
    ensures id in Perform(db, w).bookings && Perform(db, w).bookings[id] == db.bookings[id]
  {
  }

  // ------------------------------------------------------------------------------------------
  // OTPs
  // ------------------------------------------------------------------------------------------

  // The OTP can be found by a request of the booking and kind.
  predicate Findable(o: Otp, id: Id, kind: OtpKind, now: int) {
    o.booking == id && o.kind == kind && o.usedAt == None && o.expiresAt > now
  }

  // A request finds the last OTP that can be found, and is refused if there is none.
  lemma FindingStep(s: State, r: Id, c: Choice)
    requires Enabled(s, Advance(r, c)) && s.requests[r].OtpFinding?
    ensures var pc, t, otps, now := s.requests[r], Step(s, Advance(r, c)), s.db.otps, s.db.now;
            && t.db == s.db && r in t.requests
            && (t.requests[r] == Done(BadRequest) <==>
                forall k :: 0 <= k < |otps| ==> !Findable(otps[k], pc.id, pc.kind, now))
            && (t.requests[r] != Done(BadRequest) ==>
                  && t.requests[r].OtpMarking? && t.requests[r].index < |otps|
                  && t.requests[r] == OtpMarking(pc.kind, pc.id, t.requests[r].index, pc.digest)
                  && Findable(otps[t.requests[r].index], pc.id, pc.kind, now)
                  && forall k :: t.requests[r].index < k < |otps| ==> !Findable(otps[k], pc.id, pc.kind, now))
  {
    hide Intended;
    StepIsMove(s, r, c);
    OtpPlan(s.db, s.requests[r], c);
    assert forall k :: 0 <= k < |s.db.otps| ==>
      (Active(s.db.otps[k], s.requests[r].id, s.requests[r].kind, s.db.now) <==>
       Findable(s.db.otps[k], s.requests[r].id, s.requests[r].kind, s.db.now));
  }

  // It marks the OTP used if and only if the submitted one is it and it has not expired by then.
  lemma MarkingStep(s: State, r: Id, c: Choice)
    requires Enabled(s, Advance(r, c)) && s.requests[r].OtpMarking? && s.requests[r].index < |s.db.otps|
    ensures var pc := s.requests[r];
            var o := s.db.otps[pc.index];
            Step(s, Advance(r, c)) ==
            if o.digest == pc.digest && s.db.now <= o.expiresAt then
              State(s.db.(otps := s.db.otps[pc.index := o.(usedAt := Some(s.db.now))]),
                    s.requests[r := OtpWriting(pc.kind, pc.id, pc.index, pc.digest)])
            else
              s.(requests := s.requests[r := Done(BadRequest)])
  {
    hide Intended;
    StepIsMove(s, r, c);
    OtpPlan(s.db, s.requests[r], c);
  }

  // A new OTP expires a quarter of an hour after it is issued.
  lemma IssuingStep(s: State, r: Id, c: Choice)
    requires Enabled(s, Advance(r, c)) && s.requests[r].OtpIssuing?
    ensures var pc := s.requests[r];
            Step(s, Advance(r, c)) ==
            State(s.db.(otps := s.db.otps + [Otp(pc.id, pc.kind, c.digest, s.db.now + 15 * 60 * 1000, None)]),
                  s.requests[r := Done(if pc.kind == Arrival then AssignOk(pc.id) else MarkOk(pc.id))])
  {
    hide Intended;
    StepIsMove(s, r, c);
    OtpPlan(s.db, s.requests[r], c);
  }

  // ------------------------------------------------------------------------------------------
  // Creating
  // ------------------------------------------------------------------------------------------

  // The booking a repeated create request is answered with at once: pending, confirmed or cancelled.
  predicate Answers(b: Booking, key: Option<string>) {
    key.Some? && key.value != "" && b.key == key &&
    ((b.status == PendingPayment && b.order.Some?) || b.status == Confirmed || b.status == Cancelled)
  }

  // A price below one rupee is refused, and a request with a stored key is answered with the booking unless
  // its payment failed or it is being or has been served; any other goes on to the gateway.
  lemma CreateFirstStep(acts: seq<Action>, r: Id, c: Choice)
    requires IsRun(Init, acts) && Enabled(After(Init, acts), Advance(r, c)) && After(Init, acts).requests[r].CreateStart?
    ensures var s, t := After(Init, acts), Step(After(Init, acts), Advance(r, c));
            var args, rows := s.requests[r].c, s.db.bookings;
            && t.db == s.db && r in t.requests
            && (t.requests[r] == Done(BadRequest) <==> args.price < 100)
            && (forall id :: id in rows && Answers(rows[id], args.key) && args.price >= 100 ==>
                  t.requests[r] == Done(Created(args.key, id, rows[id].order)))
            && (t.requests[r] == CreateOrdering(args) <==>
                args.price >= 100 && forall id :: id in rows ==> !Answers(rows[id], args.key))
            && (t.requests[r] == Done(BadRequest) || t.requests[r] == CreateOrdering(args) ||
                exists id :: id in rows && Answers(rows[id], args.key))
  {
    hide Intended, IsRun;
    var s := After(Init, acts);
    assert KeysUnique(s.db.bookings) by {
      InitOk();
      RunKeepsInv(Init, acts);
      ColumnsAreUnique(s);
    }
    StepIsMove(s, r, c);
    CreatePlan(s.db, s.requests[r], c);
    CreateStartPlan(s.db, s.requests[r].c, c);
  }

  lemma CreateStartPlan(db: Db, args: CreateArgs, c: Choice)
    requires KeysUnique(db.bookings)
    ensures var plan, rows := PlanCreate(db, CreateStart(args), c), db.bookings;
            && plan == Go(plan.ok)
            && (plan.ok == Done(BadRequest) <==> args.price < 100)
            && (forall id :: id in rows && Answers(rows[id], args.key) && args.price >= 100 ==>
                  plan.ok == Done(Created(args.key, id, rows[id].order)))
            && (plan.ok == CreateOrdering(args) <==>
                args.price >= 100 && forall id :: id in rows ==> !Answers(rows[id], args.key))
            && (plan.ok == Done(BadRequest) || plan.ok == CreateOrdering(args) ||
                exists id :: id in rows && Answers(rows[id], args.key))
  {
    if Truthy(args.key) && KeyTaken(db.bookings, args.key) {
      var found := FindByKey(db.bookings, args.key).value;
      assert forall id :: id in db.bookings && id != found ==> db.bookings[id].key != args.key;
    }
  }

  // The gateway's order is the one the booking is inserted with; without one the request fails.
  lemma OrderingStep(s: State, r: Id, c: Choice)
    requires Enabled(s, Advance(r, c)) && s.requests[r].CreateOrdering?
    ensures var args := s.requests[r].c;
            Step(s, Advance(r, c)) ==
            if c.gatewayOk then
              State(s.db.(issued := s.db.issued + {c.newId}), s.requests[r := CreateInserting(args, c.newId)])
            else
              s.(requests := s.requests[r := Done(InternalError)])
  {
    hide Intended;
    StepIsMove(s, r, c);
    CreatePlan(s.db, s.requests[r], c);
  }

  // A request that meets a stored key at its insert reads the booking back if the key is not empty, and
  // fails otherwise.
  lemma InsertingStep(s: State, r: Id, c: Choice)
    requires Inv(s) && Enabled(s, Advance(r, c)) && s.requests[r].CreateInserting?
    ensures var args, t := s.requests[r].c, Step(s, Advance(r, c));
            var taken := args.key.Some? && exists id :: id in s.db.bookings && s.db.bookings[id].key == args.key;
            && r in t.requests
            && (!taken ==> t.requests[r] == Done(Created(args.key, c.newId, Some(s.requests[r].gatewayOrder))) &&
                           t.db.bookings.Keys == s.db.bookings.Keys + {c.newId})
            && (taken ==> t.db == s.db &&
                          t.requests[r] == if args.key != Some("") then
                                             CreateReading(args, s.requests[r].gatewayOrder)
                                           else
                                             Done(CreateRethrown(args.key)))
  {
    hide Intended, DbOk;
    assert PcOk(s.db, s.requests[r]);
    StepIsMove(s, r, c);
    CreatePlan(s.db, s.requests[r], c);
  }

  // ------------------------------------------------------------------------------------------
  // Webhooks, refunds and reviews
  // ------------------------------------------------------------------------------------------

  // An event is claimed once; who comes second is answered at once.
  lemma ClaimingStep(s: State, r: Id, c: Choice)
    requires Enabled(s, Advance(r, c)) && s.requests[r].HookStart?
    ensures var pc := s.requests[r];
            Step(s, Advance(r, c)) ==
            if pc.event in s.db.events then
              s.(requests := s.requests[r := Done(HookOk)])
            else
              State(s.db.(events := s.db.events + {pc.event}), s.requests[r := HookFinding(pc.payload)])
  {
    hide Intended;
    StepIsMove(s, r, c);
    HookPlan(s.db, s.requests[r], c);
  }

  // An event that names no booking's order, or a capture without a payment, is answered; another goes on to
  // the booking with its order.
  lemma SettlingStep(s: State, r: Id, c: Choice)
    requires Inv(s) && Enabled(s, Advance(r, c)) && s.requests[r].HookFinding?
    ensures var payload, t, rows := s.requests[r].payload, Step(s, Advance(r, c)), s.db.bookings;
            var usable := !payload.OtherEvent? && payload.order.Some? && (payload.PaymentCaptured? ==> payload.payment.Some?);
            && t.db == s.db && r in t.requests
            && (t.requests[r] == Done(HookOk) <==> !usable || forall id :: id in rows ==> rows[id].order != payload.order)
            && (forall id :: id in rows && usable && rows[id].order == payload.order ==>
                  t.requests[r] == HookWriting(id, payload))
  {
    hide Intended;
    StepIsMove(s, r, c);
    HookPlan(s.db, s.requests[r], c);
    ColumnsAreUnique(s);
  }

  // The gateway refunds what the request carries; if the call fails, or seems to, the request is refused.
  lemma RefundingStep(s: State, r: Id, c: Choice)
    requires Enabled(s, Advance(r, c)) && s.requests[r].CancelRefunding?
    ensures var pc, t := s.requests[r], Step(s, Advance(r, c));
            && t.db.refunds == s.db.refunds + (if c.gatewayOk && c.fault != NotWritten then
                                                 [Refund(pc.id, pc.payment, pc.amount, c.newId)]
                                               else
                                                 [])
            && t.db.bookings == s.db.bookings
            && t.requests == s.requests[r := if c.gatewayOk && c.fault == NoFault then
                                               CancelWriting(pc.id, pc.who, Some(pc.amount), Some(c.newId))
                                             else
                                               Done(BadRequest)]
  {
    hide Intended;
    StepIsMove(s, r, c);
    CancelPlan(s.db, s.requests[r], c);
  }

  predicate HasReview(reviews: seq<Review>, id: Id) {
    exists v :: v in reviews && v.booking == id
  }

  // A booking is reviewed once: a second review is refused when the first is seen, and fails if it was not.
  lemma ReviewingStep(s: State, r: Id, c: Choice)
    requires Enabled(s, Advance(r, c)) && (s.requests[r].ReviewFinding? || s.requests[r].ReviewInserting?)
    ensures var pc, reviewed := s.requests[r], HasReview(s.db.reviews, s.requests[r].id);
            Step(s, Advance(r, c)) ==
            if pc.ReviewFinding? then
              s.(requests := s.requests[r := if reviewed then Done(Conflict) else ReviewInserting(pc.id, pc.caller, pc.rating)])
            else if reviewed then
              s.(requests := s.requests[r := Done(InternalError)])
            else
              State(s.db.(reviews := s.db.reviews + [Review(pc.id, pc.caller, pc.rating)]),
                    s.requests[r := Done(ReviewOk(pc.id))])
  {
    hide Intended;
    StepIsMove(s, r, c);
    ReviewPlan(s.db, s.requests[r], c);
    assert forall i :: 0 <= i < |s.db.reviews| ==> s.db.reviews[i] in s.db.reviews;
  }
}
