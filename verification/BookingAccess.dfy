/**
 Who may do what with a booking: which requests get past their first step, what becomes of the others, and
 who asked for what stands in the tables.
 */
module BookingAccess {
  import opened Common
  import opened BookingTypes
  import opened BookingStore
  import opened BookingProtocol
  import opened BookingInvariant

  // ------------------------------------------------------------------------------------------
  // The first step
  // ------------------------------------------------------------------------------------------

  // A request of a caller about an existing booking.
  predicate IsByCaller(pc: Pc) {
    pc.CancelStart? || pc.AssignStart? || pc.OtpStart? || pc.MarkStart? || pc.ReviewStart?
  }

  function Owner(b: Booking, who: Canceller): Id {
    if who.ByUser? then b.user else b.provider
  }

  function Redeemer(b: Booking, kind: OtpKind): Id {
    if kind.Arrival? then b.provider else b.user
  }

  // The party whose request it is: the user cancels, redeems the completion OTP and reviews; the provider
  // cancels, assigns a service person, redeems the arrival OTP and marks the booking complete.
  function Entitled(b: Booking, entry: Pc): Id
    requires IsByCaller(entry)
  {
    match entry
    case CancelStart(_, who, _) => Owner(b, who)
    case AssignStart(_, _, _) => b.provider
    case OtpStart(kind, _, _, _) => Redeemer(b, kind)
    case MarkStart(_, _) => b.provider
    case ReviewStart(_, _, _) => b.user
  }

  // The booking's status, and the rating of a review, allow the request.
  predicate Allowed(b: Booking, entry: Pc) {
    match entry
    case CancelStart(_, _, _) => b.status == PendingPayment || b.status == Confirmed
    case AssignStart(_, _, _) => b.status == Confirmed
    case MarkStart(_, _) => b.status == ArrivalConfirmed
    case ReviewStart(_, _, rating) => b.status == Completed && 1 <= rating <= 5
    case _ => true
  }

  // A request on a booking that does not exist is answered NotFound, one by anybody but the entitled party
  // Forbidden, one at the wrong time BadRequest, or Conflict if it cancels again; and it goes on otherwise.
  // In no case does the first step write.
  lemma FirstStep(s: State, r: Id, c: Choice)
    requires Enabled(s, Advance(r, c)) && IsByCaller(s.requests[r])
    ensures var entry, t := s.requests[r], Step(s, Advance(r, c));
            && t.db == s.db && r in t.requests
            && (t.requests[r] == Done(NotFound) <==> entry.id !in s.db.bookings)
            && (t.requests[r] == Done(Forbidden) <==>
                entry.id in s.db.bookings && entry.caller != Entitled(s.db.bookings[entry.id], entry))
            && (!t.requests[r].Done? <==>
                && entry.id in s.db.bookings && entry.caller == Entitled(s.db.bookings[entry.id], entry)
                && Allowed(s.db.bookings[entry.id], entry))
            && (t.requests[r] == Done(Conflict) <==>
                && entry.CancelStart? && entry.id in s.db.bookings
                && entry.caller == Entitled(s.db.bookings[entry.id], entry)
                && s.db.bookings[entry.id].status == Cancelled)
            && (t.requests[r].Done? ==> t.requests[r].reply in {NotFound, Forbidden, Conflict, BadRequest})
  {
    hide Intended;
    var pc := s.requests[r];
    StepIsMove(s, r, c);
    if pc.CancelStart? {
      CancelPlan(s.db, pc, c);
    } else if pc.AssignStart? {
      AssignPlan(s.db, pc, c);
    } else if pc.OtpStart? {
      OtpPlan(s.db, pc, c);
    } else if pc.MarkStart? {
      MarkPlan(s.db, pc, c);
    } else {
      ReviewPlan(s.db, pc, c);
    }
  }

  // ------------------------------------------------------------------------------------------
  // Who asked for what
  // ------------------------------------------------------------------------------------------

  ghost predicate Started(acts: seq<Action>, r: Id, entry: Pc) {
    exists i :: 0 <= i < |acts| && acts[i] == Start(r, entry)
  }

  ghost predicate Asked(acts: seq<Action>, entry: Pc) {
    exists r :: Started(acts, r, entry)
  }

  ghost predicate ReviewAsked(acts: seq<Action>, db: Db, r: Id, id: Id, caller: Id, rating: int) {
    id in db.bookings && caller == db.bookings[id].user && 1 <= rating <= 5 && Started(acts, r, ReviewStart(id, caller, rating))
  }

  // How a request that stands there was started.
  ghost predicate Authorised(acts: seq<Action>, db: Db, r: Id, pc: Pc) {
    match pc
    case CreateOrdering(c) => Started(acts, r, CreateStart(c))
    case CreateInserting(c, _) => Started(acts, r, CreateStart(c))
    case CreateReading(c, _) => Started(acts, r, CreateStart(c))
    case CancelRefunding(id, who, _, _) =>
      id in db.bookings && Started(acts, r, CancelStart(id, who, Owner(db.bookings[id], who)))
    case CancelWriting(id, who, _, _) =>
      id in db.bookings && Started(acts, r, CancelStart(id, who, Owner(db.bookings[id], who)))
    case AssignWriting(id, person) =>
      id in db.bookings && Started(acts, r, AssignStart(id, db.bookings[id].provider, person))
    case OtpIssuing(Arrival, id) =>
      id in db.bookings && exists person :: Started(acts, r, AssignStart(id, db.bookings[id].provider, person))
    case OtpIssuing(Completion, id) => id in db.bookings && Started(acts, r, MarkStart(id, db.bookings[id].provider))
    case OtpFinding(kind, id, digest) =>
      id in db.bookings && Started(acts, r, OtpStart(kind, id, Redeemer(db.bookings[id], kind), digest))
    case OtpMarking(kind, id, _, digest) =>
      id in db.bookings && Started(acts, r, OtpStart(kind, id, Redeemer(db.bookings[id], kind), digest))
    case OtpWriting(kind, id, _, digest) =>
      id in db.bookings && Started(acts, r, OtpStart(kind, id, Redeemer(db.bookings[id], kind), digest))
    case MarkWriting(id) => id in db.bookings && Started(acts, r, MarkStart(id, db.bookings[id].provider))
    case ReviewFinding(id, caller, rating) => ReviewAsked(acts, db, r, id, caller, rating)
    case ReviewInserting(id, caller, rating) => ReviewAsked(acts, db, r, id, caller, rating)
    case Done(reply) => ReplyAuthorised(acts, db, r, reply)
    case _ => IsEntry(pc) ==> Started(acts, r, pc)
  }

  ghost predicate ReplyAuthorised(acts: seq<Action>, db: Db, r: Id, reply: Reply) {
    match reply
    case Created(key, _, _) => exists c :: Started(acts, r, CreateStart(c)) && c.key == key
    case CreateRethrown(key) => exists c :: Started(acts, r, CreateStart(c)) && c.key == key
    case CancelOk(id) =>
      id in db.bookings && exists who :: Started(acts, r, CancelStart(id, who, Owner(db.bookings[id], who)))
    case OtpAccepted(kind, id, _, digest) =>
      id in db.bookings && Started(acts, r, OtpStart(kind, id, Redeemer(db.bookings[id], kind), digest))
    case AssignOk(id) =>
      id in db.bookings && exists person :: Started(acts, r, AssignStart(id, db.bookings[id].provider, person))
    case MarkOk(id) => id in db.bookings && Started(acts, r, MarkStart(id, db.bookings[id].provider))
    case ReviewOk(id) => exists caller, rating :: ReviewAsked(acts, db, r, id, caller, rating)
    case _ => true
  }

  // The row holds what somebody asked to book.
  predicate IsFor(b: Booking, c: CreateArgs) {
    && b.user == c.user && b.provider == c.provider && b.key == c.key && b.amount == c.price
    && b.slotStart == c.slotStart && b.slotEnd == c.slotEnd
  }

  // Who asked for what the row says happened.
  ghost predicate RowAuthorised(acts: seq<Action>, id: Id, b: Booking) {
    && (exists c :: Asked(acts, CreateStart(c)) && IsFor(b, c))
    && (b.person.Some? ==> Asked(acts, AssignStart(id, b.provider, b.person.value)))
    && (b.cancelledBy.Some? ==> Asked(acts, CancelStart(id, b.cancelledBy.value, Owner(b, b.cancelledBy.value))))
    && (b.status in SERVED ==> exists digest :: Asked(acts, OtpStart(Arrival, id, b.provider, digest)))
    && (b.status in HANDED_OVER ==> Asked(acts, MarkStart(id, b.provider)))
    && (b.status == Completed ==> exists digest :: Asked(acts, OtpStart(Completion, id, b.user, digest)))
  }

  ghost predicate ReviewAuthorised(acts: seq<Action>, db: Db, v: Review) {
    v.booking in db.bookings && v.user == db.bookings[v.booking].user && 1 <= v.rating <= 5 &&
    Asked(acts, ReviewStart(v.booking, v.user, v.rating))
  }

  ghost predicate AllAuthorised(acts: seq<Action>, s: State) {
    && (forall r :: r in s.requests ==> Authorised(acts, s.db, r, s.requests[r]))
    && (forall id :: id in s.db.bookings ==> RowAuthorised(acts, id, s.db.bookings[id]))
    && (forall i :: 0 <= i < |s.db.reviews| ==> ReviewAuthorised(acts, s.db, s.db.reviews[i]))
  }

  // ------------------------------------------------------------------------------------------
  // One step
  // ------------------------------------------------------------------------------------------

  lemma StartedLater(acts: seq<Action>, a: Action, r: Id, entry: Pc)
    requires Started(acts, r, entry)
    ensures Started(acts + [a], r, entry)
  {
    var i :| 0 <= i < |acts| && acts[i] == Start(r, entry);
    assert (acts + [a])[i] == acts[i];
  }

  ghost predicate AllStartedLater(acts: seq<Action>, more: seq<Action>) {
    && (forall r, entry :: Started(acts, r, entry) ==> Started(more, r, entry))
    && (forall entry :: Asked(acts, entry) ==> Asked(more, entry))
  }

  lemma MoreIsStartedLater(acts: seq<Action>, a: Action)
    ensures AllStartedLater(acts, acts + [a])
  {
    hide Started;
    forall r, entry | Started(acts, r, entry) ensures Started(acts + [a], r, entry) {
      StartedLater(acts, a, r, entry);
    }
    forall entry | Asked(acts, entry) ensures Asked(acts + [a], entry) {
      var r :| Started(acts, r, entry);
      assert Started(acts + [a], r, entry);
    }
  }

  // The parties to a booking do not change.
  ghost predicate SameParties(db: Db, later: Db) {
    forall id :: id in db.bookings ==>
                   id in later.bookings && later.bookings[id].user == db.bookings[id].user &&
                   later.bookings[id].provider == db.bookings[id].provider
  }

  lemma PartiesStay(db: Db, later: Db)
    requires Grown(db, later)
    ensures SameParties(db, later)
  {
    forall id | id in db.bookings
      ensures id in later.bookings && later.bookings[id].user == db.bookings[id].user &&
              later.bookings[id].provider == db.bookings[id].provider
    {
      assert Progressed(db.bookings[id], later.bookings[id]);
    }
  }

  lemma AuthorisedLater(acts: seq<Action>, more: seq<Action>, db: Db, later: Db, r: Id, pc: Pc)
    requires AllStartedLater(acts, more) && SameParties(db, later) && Authorised(acts, db, r, pc)
    ensures Authorised(more, later, r, pc)
  {
    hide Started, Asked;
    if pc.Done? {
      ReplyAuthorisedLater(acts, more, db, later, r, pc.reply);
    }
  }

  lemma ReplyAuthorisedLater(acts: seq<Action>, more: seq<Action>, db: Db, later: Db, r: Id, reply: Reply)
    requires AllStartedLater(acts, more) && SameParties(db, later) && ReplyAuthorised(acts, db, r, reply)
    ensures ReplyAuthorised(more, later, r, reply)
  {
    hide Started, Asked;
    match reply
    case CancelOk(id) =>
      var who :| Started(acts, r, CancelStart(id, who, Owner(db.bookings[id], who)));
      assert Started(more, r, CancelStart(id, who, Owner(later.bookings[id], who)));
    case ReviewOk(id) =>
      var caller, rating :| ReviewAsked(acts, db, r, id, caller, rating);
      assert ReviewAsked(more, later, r, id, caller, rating);
    case _ =>
  }

  lemma RowAuthorisedLater(acts: seq<Action>, more: seq<Action>, id: Id, b: Booking)
    requires AllStartedLater(acts, more) && RowAuthorised(acts, id, b)
    ensures RowAuthorised(more, id, b)
  {
    hide Asked, IsFor;
  }

  // Both ways a step can end are in order if the request was.
  ghost predicate PlanAuthorised(acts: seq<Action>, db: Db, r: Id, plan: Plan) {
    Authorised(acts, db, r, plan.ok) && Authorised(acts, db, r, plan.fail)
  }

  lemma CreateIsAuthorised(acts: seq<Action>, db: Db, r: Id, pc: Pc, c: Choice)
    requires Authorised(acts, db, r, pc)
    requires pc.CreateStart? || pc.CreateOrdering? || pc.CreateInserting? || pc.CreateReading?
    ensures PlanAuthorised(acts, db, r, PlanCreate(db, pc, c))
  {
    hide Started;
    assert Started(acts, r, CreateStart(pc.c));
  }

  lemma CancelIsAuthorised(acts: seq<Action>, db: Db, r: Id, pc: Pc, c: Choice)
    requires Authorised(acts, db, r, pc) && (pc.CancelStart? || pc.CancelRefunding? || pc.CancelWriting?)
    ensures PlanAuthorised(acts, db, r, PlanCancel(db, pc, c))
  {
    hide Started;
  }

  lemma HookIsAuthorised(acts: seq<Action>, db: Db, r: Id, pc: Pc)
    requires pc.HookStart? || pc.HookFinding? || pc.HookWriting?
    ensures PlanAuthorised(acts, db, r, PlanHook(db, pc))
  {
  }

  lemma AssignIsAuthorised(acts: seq<Action>, db: Db, r: Id, pc: Pc)
    requires Authorised(acts, db, r, pc) && (pc.AssignStart? || pc.AssignWriting?)
    ensures PlanAuthorised(acts, db, r, PlanAssign(db, pc))
  {
    hide Started;
  }

  lemma MarkIsAuthorised(acts: seq<Action>, db: Db, r: Id, pc: Pc)
    requires Authorised(acts, db, r, pc) && (pc.MarkStart? || pc.MarkWriting?)
    ensures PlanAuthorised(acts, db, r, PlanMark(db, pc))
  {
    hide Started;
  }

  lemma OtpIsAuthorised(acts: seq<Action>, db: Db, r: Id, pc: Pc, c: Choice)
    requires Authorised(acts, db, r, pc)
    requires pc.OtpIssuing? || pc.OtpStart? || pc.OtpFinding? || pc.OtpMarking? || pc.OtpWriting?
    ensures PlanAuthorised(acts, db, r, PlanOtp(db, pc, c))
  {
    hide Started;
  }

  lemma ReviewIsAuthorised(acts: seq<Action>, db: Db, r: Id, pc: Pc)
    requires Authorised(acts, db, r, pc) && (pc.ReviewStart? || pc.ReviewFinding? || pc.ReviewInserting?)
    ensures PlanAuthorised(acts, db, r, PlanReview(db, pc))
  {
    hide Started, ReplyAuthorised, Reviewed;
    RefusalIsAuthorised(acts, db, r);
    if pc.ReviewStart? {
      ReviewStartIsAuthorised(acts, db, r, pc);
    } else if pc.ReviewInserting? {
      ReviewerIsAuthorised(acts, db, r, pc.id, pc.caller, pc.rating);
    }
  }

  lemma ReviewStartIsAuthorised(acts: seq<Action>, db: Db, r: Id, pc: Pc)
    requires pc.ReviewStart? && Started(acts, r, pc)
    ensures PlanAuthorised(acts, db, r, PlanReview(db, pc))
  {
    hide Started, ReplyAuthorised;
    RefusalIsAuthorised(acts, db, r);
  }

  lemma RefusalIsAuthorised(acts: seq<Action>, db: Db, r: Id)
    ensures ReplyAuthorised(acts, db, r, NotFound) && ReplyAuthorised(acts, db, r, Forbidden)
    ensures ReplyAuthorised(acts, db, r, BadRequest) && ReplyAuthorised(acts, db, r, Conflict)
    ensures ReplyAuthorised(acts, db, r, InternalError)
  {
  }

  lemma ReviewerIsAuthorised(acts: seq<Action>, db: Db, r: Id, id: Id, caller: Id, rating: int)
    requires ReviewAsked(acts, db, r, id, caller, rating)
    ensures ReplyAuthorised(acts, db, r, ReviewOk(id))
  {
  }

  lemma IntendedIsAuthorised(acts: seq<Action>, db: Db, r: Id, pc: Pc, c: Choice)
    requires Authorised(acts, db, r, pc) && !pc.Done?
    ensures PlanAuthorised(acts, db, r, Intended(db, pc, c))
  {
    hide PlanAuthorised, Authorised;
    if pc.CreateStart? || pc.CreateOrdering? || pc.CreateInserting? || pc.CreateReading? {
      CreateIsAuthorised(acts, db, r, pc, c);
    } else if pc.CancelStart? || pc.CancelRefunding? || pc.CancelWriting? {
      CancelIsAuthorised(acts, db, r, pc, c);
    } else if pc.HookStart? || pc.HookFinding? || pc.HookWriting? {
      HookIsAuthorised(acts, db, r, pc);
    } else if pc.AssignStart? || pc.AssignWriting? {
      AssignIsAuthorised(acts, db, r, pc);
    } else if pc.MarkStart? || pc.MarkWriting? {
      MarkIsAuthorised(acts, db, r, pc);
    } else if pc.ReviewStart? || pc.ReviewFinding? || pc.ReviewInserting? {
      ReviewIsAuthorised(acts, db, r, pc);
    } else {
      OtpIsAuthorised(acts, db, r, pc, c);
    }
  }

  lemma NextIsAuthorised(acts: seq<Action>, db: Db, r: Id, pc: Pc, c: Choice)
    requires Authorised(acts, db, r, pc) && !pc.Done?
    ensures Authorised(acts, db, r, Next(db, pc, c))
  {
    hide Authorised, Intended;
    IntendedIsAuthorised(acts, db, r, pc, c);
    StruckOutcome(db, Intended(db, pc, c), c.fault);
  }

  // ------------------------------------------------------------------------------------------
  // The tables
  // ------------------------------------------------------------------------------------------

  // What a write puts on record was asked for.
  ghost predicate WriteAuthorised(acts: seq<Action>, db: Db, w: Write) {
    match w
    case InsertBooking(_, row) => && (exists c :: Asked(acts, CreateStart(c)) && IsFor(row, c))
                                  && row.person.None? && row.cancelledBy.None? && row.status == PendingPayment
    case Cancel(id, who, _, _) => id in db.bookings ==> Asked(acts, CancelStart(id, who, Owner(db.bookings[id], who)))
    case AssignPerson(id, person) => id in db.bookings ==> Asked(acts, AssignStart(id, db.bookings[id].provider, person))
    case ConfirmArrival(id) =>
      id in db.bookings ==> exists digest :: Asked(acts, OtpStart(Arrival, id, db.bookings[id].provider, digest))
    case RequestCompletion(id) => id in db.bookings ==> Asked(acts, MarkStart(id, db.bookings[id].provider))
    case Complete(id) =>
      id in db.bookings ==> exists digest :: Asked(acts, OtpStart(Completion, id, db.bookings[id].user, digest))
    case InsertReview(review) => ReviewAuthorised(acts, db, review)
    case _ => true
  }

  lemma IntendedWriteIsAuthorised(acts: seq<Action>, db: Db, r: Id, pc: Pc, c: Choice)
    requires Authorised(acts, db, r, pc) && !pc.Done?
    ensures WriteAuthorised(acts, db, Intended(db, pc, c).write)
  {
    hide Started;
    if pc.CreateInserting? {
      assert IsFor(NewBooking(pc.c, pc.gatewayOrder), pc.c);
    }
  }

  lemma WriteIsAuthorised(acts: seq<Action>, db: Db, r: Id, pc: Pc, c: Choice)
    requires Authorised(acts, db, r, pc) && !pc.Done?
    ensures WriteAuthorised(acts, db, PlanOf(db, pc, c).write)
  {
    hide Authorised, Intended;
    IntendedWriteIsAuthorised(acts, db, r, pc, c);
  }

  lemma RowStaysAuthorised(acts: seq<Action>, db: Db, w: Write, id: Id)
    requires WriteAuthorised(acts, db, w) && id in Perform(db, w).bookings
    requires id in db.bookings ==> RowAuthorised(acts, id, db.bookings[id])
    ensures RowAuthorised(acts, id, Perform(db, w).bookings[id])
  {
    hide Asked;
  }

  lemma ReviewsStayAuthorised(acts: seq<Action>, db: Db, w: Write)
    requires WriteAuthorised(acts, db, w) && SameParties(db, Perform(db, w))
    requires forall i :: 0 <= i < |db.reviews| ==> ReviewAuthorised(acts, db, db.reviews[i])
    ensures var after := Perform(db, w);
            forall i :: 0 <= i < |after.reviews| ==> ReviewAuthorised(acts, after, after.reviews[i])
  {
    hide Asked;
  }

  // ------------------------------------------------------------------------------------------
  // Runs
  // ------------------------------------------------------------------------------------------

  lemma AdvanceStaysAuthorised(acts: seq<Action>, s: State, r: Id, c: Choice)
    requires Inv(s) && AllAuthorised(acts, s) && Enabled(s, Advance(r, c))
    ensures AllAuthorised(acts, Step(s, Advance(r, c)))
  {
    hide Inv, PlanOf, Perform, Authorised, RowAuthorised, ReviewAuthorised, WriteAuthorised;
    var pc := s.requests[r];
    var w := PlanOf(s.db, pc, c).write;
    var after := Perform(s.db, w);
    StepIsMove(s, r, c);
    StepGrows(s, Advance(r, c));
    PartiesStay(s.db, after);
    NextIsAuthorised(acts, s.db, r, pc, c);
    WriteIsAuthorised(acts, s.db, r, pc, c);
    ReviewsStayAuthorised(acts, s.db, w);
    var requests := s.requests[r := Next(s.db, pc, c)];
    forall q | q in requests ensures Authorised(acts, after, q, requests[q]) {
      AuthorisedLater(acts, acts, s.db, after, q, requests[q]);
    }
    forall id | id in after.bookings ensures RowAuthorised(acts, id, after.bookings[id]) {
      RowStaysAuthorised(acts, s.db, w, id);
    }
  }

  lemma LaterStaysAuthorised(acts: seq<Action>, a: Action, s: State)
    requires AllAuthorised(acts, s)
    ensures AllAuthorised(acts + [a], s)
  {
    hide Authorised, RowAuthorised, AllStartedLater;
    MoreIsStartedLater(acts, a);
    forall r | r in s.requests ensures Authorised(acts + [a], s.db, r, s.requests[r]) {
      AuthorisedLater(acts, acts + [a], s.db, s.db, r, s.requests[r]);
    }
    forall id | id in s.db.bookings ensures RowAuthorised(acts + [a], id, s.db.bookings[id]) {
      RowAuthorisedLater(acts, acts + [a], id, s.db.bookings[id]);
    }
    forall i | 0 <= i < |s.db.reviews| ensures ReviewAuthorised(acts + [a], s.db, s.db.reviews[i]) {
      ReviewAuthorisedLater(acts, acts + [a], s.db, s.db.reviews[i]);
    }
  }

  lemma ReviewAuthorisedLater(acts: seq<Action>, more: seq<Action>, db: Db, v: Review)
    requires AllStartedLater(acts, more) && ReviewAuthorised(acts, db, v)
    ensures ReviewAuthorised(more, db, v)
  {
    hide Asked, Started;
  }

  lemma StepStaysAuthorised(acts: seq<Action>, s: State, a: Action)
    requires Inv(s) && AllAuthorised(acts, s) && Enabled(s, a)
    ensures AllAuthorised(acts + [a], Step(s, a))
  {
    hide Inv, Authorised, RowAuthorised, ReviewAuthorised, PlanOf, Perform;
    match a
    case Start(r, entry) =>
      LaterStaysAuthorised(acts, a, s);
      assert Authorised(acts + [a], s.db, r, entry) by { EntryIsAuthorised(acts, s.db, r, entry); }
    case Advance(r, c) =>
      AdvanceStaysAuthorised(acts, s, r, c);
      LaterStaysAuthorised(acts, a, Step(s, a));
    case Tick(elapsed) =>
      LaterStaysAuthorised(acts, a, s);
      TickIs(s, elapsed);
      TickStaysAuthorised(acts + [a], s, elapsed);
  }

  lemma EntryIsAuthorised(acts: seq<Action>, db: Db, r: Id, entry: Pc)
    requires IsEntry(entry)
    ensures Authorised(acts + [Start(r, entry)], db, r, entry)
  {
    assert (acts + [Start(r, entry)])[|acts|] == Start(r, entry);
  }

  lemma TickStaysAuthorised(acts: seq<Action>, s: State, elapsed: nat)
    requires AllAuthorised(acts, s)
    ensures AllAuthorised(acts, s.(db := s.db.(now := s.db.now + elapsed)))
  {
    hide Started, Asked, RowAuthorised;
    var later := s.db.(now := s.db.now + elapsed);
    forall r | r in s.requests ensures Authorised(acts, later, r, s.requests[r]) {
      assert AllStartedLater(acts, acts);
      AuthorisedLater(acts, acts, s.db, later, r, s.requests[r]);
    }
    forall i | 0 <= i < |s.db.reviews| ensures ReviewAuthorised(acts, later, later.reviews[i]) {
      assert ReviewAuthorised(acts, s.db, s.db.reviews[i]);
    }
  }

  // In every interleaving: a request that has got past its first step was started, with what it now
  // carries, by the party whose request it is; and each row and each review says only what the parties of
  // the booking asked for.
  lemma {:induction false} PartiesAskedForEverything(acts: seq<Action>)
    requires IsRun(Init, acts)
    ensures AllAuthorised(acts, After(Init, acts))
  {
    hide Inv, Authorised, RowAuthorised, ReviewAuthorised, Step;
    if acts == [] {
    } else {
      var front, a := acts[..|acts| - 1], acts[|acts| - 1];
      PartiesAskedForEverything(front);
      InitOk();
      RunKeepsInv(Init, front);
      StepStaysAuthorised(front, After(Init, front), a);
      assert acts == front + [a];
    }
  }

  predicate TurnedAway(pc: Pc, entry: Pc) {
    pc == entry || pc == Done(Forbidden) || pc == Done(NotFound)
  }

  lemma OutsiderStep(s: State, a: Action, r: Id, entry: Pc)
    requires Enabled(s, a) && IsByCaller(entry) && r in s.requests && TurnedAway(s.requests[r], entry)
    requires entry.id in s.db.bookings ==> entry.caller != Entitled(s.db.bookings[entry.id], entry)
    ensures r in Step(s, a).requests && TurnedAway(Step(s, a).requests[r], entry)
    ensures a.Advance? && a.request == r ==> Step(s, a).db == s.db
  {
    hide PlanOf, Perform, Entitled;
    match a
    case Start(_, _) =>
    case Tick(elapsed) => TickIs(s, elapsed);
    case Advance(q, c) =>
      StepIsMove(s, q, c);
      if q == r {
        FirstStep(s, r, c);
      }
  }

  lemma OutsiderBefore(db: Db, later: Db, entry: Pc)
    requires Grown(db, later) && IsByCaller(entry)
    requires entry.id in later.bookings ==> entry.caller != Entitled(later.bookings[entry.id], entry)
    ensures entry.id in db.bookings ==> entry.caller != Entitled(db.bookings[entry.id], entry)
  {
    PartiesStay(db, later);
  }

  // In every interleaving a request on a booking by anybody but the entitled party waits or is answered
  // Forbidden, or NotFound if it came before the booking.
  lemma {:induction false} OutsidersAreTurnedAway(acts: seq<Action>, i: nat, r: Id, entry: Pc)
    requires IsRun(Init, acts) && i < |acts| && acts[i] == Start(r, entry) && IsByCaller(entry)
    requires var db := After(Init, acts).db;
             entry.id in db.bookings ==> entry.caller != Entitled(db.bookings[entry.id], entry)
    ensures r in After(Init, acts).requests && TurnedAway(After(Init, acts).requests[r], entry)
  {
    hide Inv, Step, Entitled, TurnedAway;
    var n := |acts| - 1;
    var front, s := acts[..n], After(Init, acts[..n]);
    if i == n {
      WaitingIsTurnedAway(entry);
      StartIs(s, r, entry);
    } else {
      InitOk();
      RunKeepsInv(Init, front);
      StepGrows(s, acts[n]);
      OutsiderBefore(s.db, After(Init, acts).db, entry);
      OutsidersAreTurnedAway(front, i, r, entry);
      OutsiderStep(s, acts[n], r, entry);
    }
  }

  // And nothing it does changes the database.
  lemma OutsidersWriteNothing(acts: seq<Action>, i: nat, j: nat, r: Id, entry: Pc)
    requires IsRun(Init, acts) && i < j < |acts| && acts[i] == Start(r, entry) && IsByCaller(entry)
    requires acts[j].Advance? && acts[j].request == r
    requires var db := After(Init, acts).db;
             entry.id in db.bookings ==> entry.caller != Entitled(db.bookings[entry.id], entry)
    ensures IsRun(Init, acts[..j]) && IsRun(Init, acts[..j + 1])
    ensures After(Init, acts[..j + 1]).db == After(Init, acts[..j]).db
  {
    hide Inv, Step, Entitled, TurnedAway, IsRun;
    RunPrefix(Init, acts, j);
    RunSuffix(Init, acts, j);
    InitOk();
    RunKeepsInv(Init, acts[..j]);
    RunKeepsInv(After(Init, acts[..j]), acts[j..]);
    OutsiderBefore(After(Init, acts[..j]).db, After(Init, acts).db, entry);
    OutsidersAreTurnedAway(acts[..j], i, r, entry);
    OutsiderStep(After(Init, acts[..j]), acts[j], r, entry);
  }

  lemma StartIs(s: State, r: Id, entry: Pc)
    requires Enabled(s, Start(r, entry))
    ensures Step(s, Start(r, entry)) == s.(requests := s.requests[r := entry])
  {
  }

  lemma WaitingIsTurnedAway(entry: Pc)
    ensures TurnedAway(entry, entry)
  {
  }
}
