/**
 The requests of the booking service as programs over the booking database, and the machine that
 interleaves them.  One step of a request is what runs between two awaits: reads and checks, then
 at most one atomic write.  A request that is never scheduled again models a crash or a timeout.
 */
module BookingProtocol {
  import opened Common
  import opened BookingTypes
  import opened BookingStore

  const MIN_AMOUNT := 100
  const HOUR := 60 * 60 * 1000

  // ------------------------------------------------------------------------------------------
  // Requests
  // ------------------------------------------------------------------------------------------

  datatype CreateArgs = CreateArgs(
    user: Id, provider: Id, key: Option<string>, price: int, slotStart: int, slotEnd: int)

  datatype PaymentEvent =
    | PaymentCaptured(order: Option<Id>, payment: Option<Id>)
    | PaymentFailure(order: Option<Id>)
    | OtherEvent

  datatype Reply =
    | Created(key: Option<string>, id: Id, order: Option<Id>)
    | CreateRethrown(key: Option<string>)
    | CancelOk(id: Id)
    | OtpAccepted(kind: OtpKind, id: Id, index: nat, digest: string)
    | AssignOk(id: Id)
    | MarkOk(id: Id)
    | ReviewOk(id: Id)
    | HookOk
    | NotFound
    | Forbidden
    | BadRequest
    | Conflict
    | InternalError

  // Where a request stands.  The submitted OTP travels as its digest.
  datatype Pc =
    | CreateStart(c: CreateArgs)
    | CreateOrdering(c: CreateArgs)
    | CreateInserting(c: CreateArgs, gatewayOrder: Id)
    | CreateReading(c: CreateArgs, gatewayOrder: Id)
    | CancelStart(id: Id, who: Canceller, caller: Id)
    | CancelRefunding(id: Id, who: Canceller, payment: Id, amount: int)
    | CancelWriting(id: Id, who: Canceller, recorded: Option<int>, refund: Option<Id>)
    | HookStart(event: string, payload: PaymentEvent)
    | HookFinding(payload: PaymentEvent)
    | HookWriting(id: Id, payload: PaymentEvent)
    | AssignStart(id: Id, caller: Id, person: Id)
    | AssignWriting(id: Id, person: Id)
    | OtpIssuing(kind: OtpKind, id: Id)
    | OtpStart(kind: OtpKind, id: Id, caller: Id, digest: string)
    | OtpFinding(kind: OtpKind, id: Id, digest: string)
    | OtpMarking(kind: OtpKind, id: Id, index: nat, digest: string)
    | OtpWriting(kind: OtpKind, id: Id, index: nat, digest: string)
    | MarkStart(id: Id, caller: Id)
    | MarkWriting(id: Id)
    | ReviewStart(id: Id, caller: Id, rating: int)
    | ReviewFinding(id: Id, caller: Id, rating: int)
    | ReviewInserting(id: Id, caller: Id, rating: int)
    | Done(reply: Reply)

  predicate IsEntry(pc: Pc) {
    pc.CreateStart? || pc.CancelStart? || pc.HookStart? || pc.AssignStart? || pc.OtpStart? || pc.MarkStart? ||
    pc.ReviewStart?
  }

  // What the environment decides in a step: a fresh id, the gateway's answer, a new OTP's digest and
  // whether a fault strikes a status update, which the repositories report like a row that did not match,
  // or a refund call, which the service takes for a refusal.
  datatype Choice = Choice(newId: Id, gatewayOk: bool, digest: string, fault: Fault)

  // The write of a step, and where the request goes when it does or does not take effect.
  datatype Plan = Plan(write: Write, ok: Pc, fail: Pc)

  function Go(pc: Pc): Plan {
    Plan(NoWrite, pc, pc)
  }

  function Answer(reply: Reply): Plan {
    Go(Done(reply))
  }

  // ------------------------------------------------------------------------------------------
  // Queries
  // ------------------------------------------------------------------------------------------

  // An empty key is falsy in the service's checks, yet stored and unique like any other.
  predicate Truthy(key: Option<string>) {
    key.Some? && key.value != ""
  }

  ghost function FindByKey(bookings: map<Id, Booking>, key: Option<string>): (found: Option<Id>)
    ensures found.Some? ==> found.value in bookings && bookings[found.value].key == key
    ensures found.None? ==> !KeyTaken(bookings, key)
  {
    if KeyTaken(bookings, key) then
      var id :| id in bookings && bookings[id].key == key;
      Some(id)
    else
      None
  }

  ghost function FindByOrder(bookings: map<Id, Booking>, order: Option<Id>): (found: Option<Id>)
    ensures found.Some? ==> found.value in bookings && bookings[found.value].order == order
    ensures found.None? ==> !OrderTaken(bookings, order)
  {
    if OrderTaken(bookings, order) then
      var id :| id in bookings && bookings[id].order == order;
      Some(id)
    else
      None
  }

  predicate Active(o: Otp, id: Id, kind: OtpKind, now: int) {
    o.booking == id && o.kind == kind && o.usedAt.None? && o.expiresAt > now
  }

  // The newest active OTP of a booking.
  function LatestActive(otps: seq<Otp>, id: Id, kind: OtpKind, now: int): (found: Option<nat>)
    ensures found.Some? ==> found.value < |otps| && Active(otps[found.value], id, kind, now)
    ensures found.Some? ==> forall k :: found.value < k < |otps| ==> !Active(otps[k], id, kind, now)
    ensures found.None? ==> forall k :: 0 <= k < |otps| ==> !Active(otps[k], id, kind, now)
  {
    if otps == [] then
      None
    else if Active(otps[|otps| - 1], id, kind, now) then
      Some(|otps| - 1)
    else
      LatestActive(otps[..|otps| - 1], id, kind, now)
  }

  function RefundPercentage(slotStart: int, now: int): int {
    if slotStart - now >= 24 * HOUR then 100 else if slotStart - now >= 12 * HOUR then 50 else 0
  }

  function UserCancelRefund(amount: int, slotStart: int, now: int): int {
    amount * RefundPercentage(slotStart, now) / 100
  }

  // ------------------------------------------------------------------------------------------
  // The programs
  // ------------------------------------------------------------------------------------------

  function NewBooking(c: CreateArgs, order: Id): Booking {
    Booking(c.key, c.user, c.provider, PendingPayment, c.slotStart, c.slotEnd, c.price, Some(order),
            None, None, None, None, None, None, None, None, None)
  }

  ghost function PlanCreate(db: Db, pc: Pc, c: Choice): Plan
    requires pc.CreateStart? || pc.CreateOrdering? || pc.CreateInserting? || pc.CreateReading?
  {
    match pc
    case CreateStart(args) =>
      if args.price < MIN_AMOUNT then
        Answer(BadRequest)
      else if Truthy(args.key) then
        match FindByKey(db.bookings, args.key) {
          case None => Go(CreateOrdering(args))
          case Some(id) =>
            var b := db.bookings[id];
            if (b.status == PendingPayment && b.order.Some?) || b.status in {Confirmed, Cancelled} then
              Answer(Created(args.key, id, b.order))
            else
              Go(CreateOrdering(args))
        }
      else
        Go(CreateOrdering(args))
    case CreateOrdering(args) =>
      if c.gatewayOk then
        Plan(CreateOrder(c.newId), CreateInserting(args, c.newId), Done(InternalError))
      else
        Answer(InternalError)
    case CreateInserting(args, order) =>
      Plan(InsertBooking(c.newId, NewBooking(args, order)),
           Done(Created(args.key, c.newId, Some(order))),
           if Truthy(args.key) && KeyTaken(db.bookings, args.key) then
             CreateReading(args, order)
           else
             Done(CreateRethrown(args.key)))
    case CreateReading(args, order) =>
      match FindByKey(db.bookings, args.key) {
        case None => Answer(CreateRethrown(args.key))
        case Some(id) =>
          var stored := db.bookings[id].order;
          Answer(Created(args.key, id, if stored.Some? then stored else Some(order)))
      }
  }

  function PlanCancel(db: Db, pc: Pc, c: Choice): Plan
    requires pc.CancelStart? || pc.CancelRefunding? || pc.CancelWriting?
  {
    match pc
    case CancelStart(id, who, caller) =>
      if id !in db.bookings then
        Answer(NotFound)
      else
        var b := db.bookings[id];
        if caller != (if who.ByUser? then b.user else b.provider) then
          Answer(Forbidden)
        else if b.status == Cancelled then
          Answer(Conflict)
        else if b.status !in {Confirmed, PendingPayment} then
          Answer(BadRequest)
        else if who.ByUser? then
          var refund := UserCancelRefund(b.amount, b.slotStart, db.now);
          if refund > 0 && b.payment.Some? then
            Go(CancelRefunding(id, who, b.payment.value, refund))
          else
            Go(CancelWriting(id, who, if refund > 0 then Some(refund) else None, None))
        else if b.payment.Some? then
          Go(CancelRefunding(id, who, b.payment.value, b.amount))
        else
          Go(CancelWriting(id, who, Some(b.amount), None))
    case CancelRefunding(id, who, payment, amount) =>
      if c.gatewayOk then
        var next := CancelWriting(id, who, Some(amount), Some(c.newId));
        Plan(RefundPayment(Refund(id, payment, amount, c.newId)), next, Done(BadRequest))
      else
        Answer(BadRequest)
    case CancelWriting(id, who, recorded, refund) =>
      Plan(Cancel(id, who, recorded, refund), Done(CancelOk(id)), Done(Conflict))
  }

  ghost function PlanHook(db: Db, pc: Pc): Plan
    requires pc.HookStart? || pc.HookFinding? || pc.HookWriting?
  {
    match pc
    case HookStart(event, payload) =>
      Plan(ClaimEvent(event), HookFinding(payload), Done(HookOk))
    case HookFinding(payload) =>
      if payload.OtherEvent? || payload.order.None? || (payload.PaymentCaptured? && payload.payment.None?) then
        Answer(HookOk)
      else
        match FindByOrder(db.bookings, payload.order) {
          case None => Answer(HookOk)
          case Some(id) => Go(HookWriting(id, payload))
        }
    case HookWriting(id, payload) =>
      if payload.PaymentCaptured? && payload.payment.Some? then
        Plan(Capture(id, payload.payment.value), Done(HookOk), Done(HookOk))
      else
        Plan(FailPayment(id), Done(HookOk), Done(HookOk))
  }

  function PlanAssign(db: Db, pc: Pc): Plan
    requires pc.AssignStart? || pc.AssignWriting?
  {
    match pc
    case AssignStart(id, caller, person) =>
      if id !in db.bookings then
        Answer(NotFound)
      else if db.bookings[id].provider != caller then
        Answer(Forbidden)
      else if db.bookings[id].status != Confirmed then
        Answer(BadRequest)
      else
        Go(AssignWriting(id, person))
    case AssignWriting(id, person) =>
      Plan(AssignPerson(id, person), OtpIssuing(Arrival, id), Done(Conflict))
  }

  function PlanMark(db: Db, pc: Pc): Plan
    requires pc.MarkStart? || pc.MarkWriting?
  {
    match pc
    case MarkStart(id, caller) =>
      if id !in db.bookings then
        Answer(NotFound)
      else if db.bookings[id].provider != caller then
        Answer(Forbidden)
      else if db.bookings[id].status != ArrivalConfirmed then
        Answer(BadRequest)
      else
        Go(MarkWriting(id))
    case MarkWriting(id) =>
      Plan(RequestCompletion(id), OtpIssuing(Completion, id), Done(Conflict))
  }

  function NewOtp(kind: OtpKind, id: Id, digest: string, now: int): Otp {
    Otp(id, kind, digest, now + OTP_TTL, None)
  }

  // Issuing an OTP, and redeeming one to confirm arrival or completion.
  function PlanOtp(db: Db, pc: Pc, c: Choice): Plan
    requires pc.OtpIssuing? || pc.OtpStart? || pc.OtpFinding? || pc.OtpMarking? || pc.OtpWriting?
  {
    match pc
    case OtpIssuing(kind, id) =>
      var reply := Done(if kind.Arrival? then AssignOk(id) else MarkOk(id));
      Plan(InsertOtp(NewOtp(kind, id, c.digest, db.now)), reply, reply)
    case OtpStart(kind, id, caller, digest) =>
      if id !in db.bookings then
        Answer(NotFound)
      else if caller != (if kind.Arrival? then db.bookings[id].provider else db.bookings[id].user) then
        Answer(Forbidden)
      else
        Go(OtpFinding(kind, id, digest))
    case OtpFinding(kind, id, digest) =>
      match LatestActive(db.otps, id, kind, db.now) {
        case None => Answer(BadRequest)
        case Some(k) => Go(OtpMarking(kind, id, k, digest))
      }
    case OtpMarking(kind, id, k, digest) =>
      if k >= |db.otps| || db.otps[k].expiresAt < db.now || db.otps[k].digest != digest then
        Answer(BadRequest)
      else
        Plan(MarkUsed(k), OtpWriting(kind, id, k, digest), Done(InternalError))
    case OtpWriting(kind, id, k, digest) =>
      Plan(if kind.Arrival? then ConfirmArrival(id) else Complete(id),
           Done(OtpAccepted(kind, id, k, digest)), Done(BadRequest))
  }

  function PlanReview(db: Db, pc: Pc): Plan
    requires pc.ReviewStart? || pc.ReviewFinding? || pc.ReviewInserting?
  {
    match pc
    case ReviewStart(id, caller, rating) =>
      if id !in db.bookings then
        Answer(NotFound)
      else if db.bookings[id].user != caller then
        Answer(Forbidden)
      else if db.bookings[id].status != Completed || !(1 <= rating <= 5) then
        Answer(BadRequest)
      else
        Go(ReviewFinding(id, caller, rating))
    case ReviewFinding(id, caller, rating) =>
      if Reviewed(db.reviews, id) then Answer(Conflict) else Go(ReviewInserting(id, caller, rating))
    case ReviewInserting(id, caller, rating) =>
      Plan(InsertReview(Review(id, caller, rating)), Done(ReviewOk(id)), Done(InternalError))
  }

  predicate CanFail(w: Write) {
    IsUpdate(w) || w.RefundPayment?
  }

  function Struck(plan: Plan, fault: Fault): Plan {
    if fault == NoFault || !CanFail(plan.write) then
      plan
    else if fault == NotWritten then
      Go(plan.fail)
    else
      Plan(plan.write, plan.fail, plan.fail)
  }

  ghost function PlanOf(db: Db, pc: Pc, c: Choice): Plan {
    Struck(Intended(db, pc, c), c.fault)
  }

  ghost function Intended(db: Db, pc: Pc, c: Choice): Plan {
    if pc.CreateStart? || pc.CreateOrdering? || pc.CreateInserting? || pc.CreateReading? then
      PlanCreate(db, pc, c)
    else if pc.CancelStart? || pc.CancelRefunding? || pc.CancelWriting? then
      PlanCancel(db, pc, c)
    else if pc.HookStart? || pc.HookFinding? || pc.HookWriting? then
      PlanHook(db, pc)
    else if pc.AssignStart? || pc.AssignWriting? then
      PlanAssign(db, pc)
    else if pc.MarkStart? || pc.MarkWriting? then
      PlanMark(db, pc)
    else if pc.ReviewStart? || pc.ReviewFinding? || pc.ReviewInserting? then
      PlanReview(db, pc)
    else if pc.Done? then
      Go(pc)
    else
      PlanOtp(db, pc, c)
  }

  lemma CancelPlan(db: Db, pc: Pc, c: Choice)
    requires pc.CancelStart? || pc.CancelRefunding? || pc.CancelWriting?
    ensures PlanOf(db, pc, c) == Struck(PlanCancel(db, pc, c), c.fault)
  {
  }

  lemma CreatePlan(db: Db, pc: Pc, c: Choice)
    requires pc.CreateStart? || pc.CreateOrdering? || pc.CreateInserting? || pc.CreateReading?
    ensures PlanOf(db, pc, c) == Struck(PlanCreate(db, pc, c), c.fault)
  {
  }

  lemma HookPlan(db: Db, pc: Pc, c: Choice)
    requires pc.HookStart? || pc.HookFinding? || pc.HookWriting?
    ensures PlanOf(db, pc, c) == Struck(PlanHook(db, pc), c.fault)
  {
  }

  lemma AssignPlan(db: Db, pc: Pc, c: Choice)
    requires pc.AssignStart? || pc.AssignWriting?
    ensures PlanOf(db, pc, c) == Struck(PlanAssign(db, pc), c.fault)
  {
  }

  lemma MarkPlan(db: Db, pc: Pc, c: Choice)
    requires pc.MarkStart? || pc.MarkWriting?
    ensures PlanOf(db, pc, c) == Struck(PlanMark(db, pc), c.fault)
  {
  }

  lemma OtpPlan(db: Db, pc: Pc, c: Choice)
    requires pc.OtpIssuing? || pc.OtpStart? || pc.OtpFinding? || pc.OtpMarking? || pc.OtpWriting?
    ensures PlanOf(db, pc, c) == Struck(PlanOtp(db, pc, c), c.fault)
  {
  }

  lemma ReviewPlan(db: Db, pc: Pc, c: Choice)
    requires pc.ReviewStart? || pc.ReviewFinding? || pc.ReviewInserting?
    ensures PlanOf(db, pc, c) == Struck(PlanReview(db, pc), c.fault)
  {
  }

  ghost function Outcome(db: Db, plan: Plan): Pc {
    if Succeeds(db, plan.write) then plan.ok else plan.fail
  }

  ghost function Next(db: Db, pc: Pc, c: Choice): Pc {
    Outcome(db, PlanOf(db, pc, c))
  }

  // ------------------------------------------------------------------------------------------
  // The machine
  // ------------------------------------------------------------------------------------------

  // Finished requests keep their reply, so a state also is the history of what was answered.
  datatype State = State(db: Db, requests: map<Id, Pc>)

  datatype Action =
    | Start(request: Id, entry: Pc)
    | Advance(request: Id, choice: Choice)
    | Tick(elapsed: nat)

  const Init := State(EmptyDb, map[])

  ghost predicate Enabled(s: State, a: Action) {
    match a
    case Start(r, entry) => r !in s.requests && IsEntry(entry)
    case Advance(r, c) => r in s.requests && !s.requests[r].Done? && c.newId !in s.db.issued
    case Tick(_) => true
  }

  ghost function Step(s: State, a: Action): State
    requires Enabled(s, a)
  {
    match a
    case Start(r, entry) => s.(requests := s.requests[r := entry])
    case Advance(r, c) =>
      State(Perform(s.db, PlanOf(s.db, s.requests[r], c).write), s.requests[r := Next(s.db, s.requests[r], c)])
    case Tick(elapsed) => s.(db := s.db.(now := s.db.now + elapsed))
  }

  // A run is a sequence of actions, each enabled where it happens; any interleaving is a run.
  ghost predicate IsRun(s: State, acts: seq<Action>)
    decreases acts, 0
  {
    acts == [] || (IsRun(s, acts[..|acts| - 1]) && Enabled(After(s, acts[..|acts| - 1]), acts[|acts| - 1]))
  }

  ghost function After(s: State, acts: seq<Action>): State
    requires IsRun(s, acts)
    decreases acts, 1
  {
    if acts == [] then s else Step(After(s, acts[..|acts| - 1]), acts[|acts| - 1])
  }

  lemma RunExtends(s: State, acts: seq<Action>, a: Action)
    requires IsRun(s, acts) && Enabled(After(s, acts), a)
    ensures IsRun(s, acts + [a]) && After(s, acts + [a]) == Step(After(s, acts), a)
  {
    assert (acts + [a])[..|acts|] == acts;
  }

  lemma {:induction false} RunsConcat(s: State, acts: seq<Action>, more: seq<Action>)
    requires IsRun(s, acts) && IsRun(After(s, acts), more)
    ensures IsRun(s, acts + more) && After(s, acts + more) == After(After(s, acts), more)
  {
    if more == [] {
      assert acts + more == acts;
    } else {
      var n := |more| - 1;
      RunsConcat(s, acts, more[..n]);
      assert acts + more == (acts + more[..n]) + [more[n]];
      RunExtends(s, acts + more[..n], more[n]);
    }
  }

  lemma {:induction false} RunPrefix(s: State, acts: seq<Action>, i: nat)
    requires IsRun(s, acts) && i < |acts|
    ensures IsRun(s, acts[..i]) && Enabled(After(s, acts[..i]), acts[i])
    ensures IsRun(s, acts[..i + 1]) && After(s, acts[..i + 1]) == Step(After(s, acts[..i]), acts[i])
  {
    if i == |acts| - 1 {
      assert acts[..i + 1] == acts;
    } else {
      var front := acts[..|acts| - 1];
      assert front[..i] == acts[..i] && front[..i + 1] == acts[..i + 1];
      RunPrefix(s, front, i);
    }
  }

  lemma RunOfNone(s: State)
    ensures IsRun(s, []) && After(s, []) == s
  {
  }

  lemma RunLast(s: State, acts: seq<Action>)
    requires IsRun(s, acts) && acts != []
    ensures var front := acts[..|acts| - 1];
            && IsRun(s, front) && Enabled(After(s, front), acts[|acts| - 1])
            && After(s, acts) == Step(After(s, front), acts[|acts| - 1])
  {
  }

  lemma {:induction false} RunSuffix(s: State, acts: seq<Action>, i: nat)
    requires IsRun(s, acts) && i <= |acts|
    ensures IsRun(s, acts[..i]) && IsRun(After(s, acts[..i]), acts[i..])
    ensures After(After(s, acts[..i]), acts[i..]) == After(s, acts)
  {
    hide IsRun, After, Enabled, Step;
    if i == |acts| {
      assert acts[..i] == acts && acts[i..] == [];
      RunOfNone(After(s, acts));
    } else {
      var front, a := acts[..|acts| - 1], acts[|acts| - 1];
      RunLast(s, acts);
      RunSuffix(s, front, i);
      assert front[..i] == acts[..i] && acts[i..] == front[i..] + [a];
      RunExtends(After(s, acts[..i]), front[i..], a);
    }
  }

  // What was answered stays answered.
  lemma {:induction false} DoneStays(s: State, acts: seq<Action>, r: Id)
    requires IsRun(s, acts) && r in s.requests && s.requests[r].Done?
    ensures r in After(s, acts).requests && After(s, acts).requests[r] == s.requests[r]
  {
    if acts == [] {
    } else {
      DoneStays(s, acts[..|acts| - 1], r);
    }
  }

  lemma RunOfOne(s: State, a: Action)
    requires Enabled(s, a)
    ensures IsRun(s, [a]) && After(s, [a]) == Step(s, a)
  {
    assert [] + [a] == [a];
    RunExtends(s, [], a);
  }

  // ------------------------------------------------------------------------------------------
  // One request on its own
  // ------------------------------------------------------------------------------------------

  // The database and the one request being served.
  datatype Spot = Spot(db: Db, pc: Pc)

  ghost predicate CanMove(at: Spot, c: Choice) {
    !at.pc.Done? && c.newId !in at.db.issued
  }

  ghost function Move(at: Spot, c: Choice): Spot {
    Spot(Perform(at.db, PlanOf(at.db, at.pc, c).write), Next(at.db, at.pc, c))
  }

  lemma StepIsMove(s: State, r: Id, c: Choice)
    requires Enabled(s, Advance(r, c))
    ensures var to := Move(Spot(s.db, s.requests[r]), c);
            Step(s, Advance(r, c)) == State(to.db, s.requests[r := to.pc])
  {
  }

  // Serving a request without interruption, one choice of the environment per step.
  ghost predicate CanServe(at: Spot, cs: seq<Choice>)
    decreases cs, 0
  {
    cs == [] || (CanServe(at, cs[..|cs| - 1]) && CanMove(Serve(at, cs[..|cs| - 1]), cs[|cs| - 1]))
  }

  ghost function Serve(at: Spot, cs: seq<Choice>): Spot
    requires CanServe(at, cs)
    decreases cs, 1
  {
    if cs == [] then at else Move(Serve(at, cs[..|cs| - 1]), cs[|cs| - 1])
  }

  lemma ServeExtends(at: Spot, cs: seq<Choice>, c: Choice)
    requires CanServe(at, cs) && CanMove(Serve(at, cs), c)
    ensures CanServe(at, cs + [c]) && Serve(at, cs + [c]) == Move(Serve(at, cs), c)
  {
    assert (cs + [c])[..|cs|] == cs;
  }

  // The actions of request r while it is served.
  function Serving(r: Id, entry: Pc, cs: seq<Choice>): seq<Action> {
    if cs == [] then [Start(r, entry)] else Serving(r, entry, cs[..|cs| - 1]) + [Advance(r, cs[|cs| - 1])]
  }

  // Serving a request on its own is one of the runs of the machine.
  lemma {:induction false} ServingIsARun(s: State, r: Id, entry: Pc, cs: seq<Choice>)
    requires r !in s.requests && IsEntry(entry) && CanServe(Spot(s.db, entry), cs)
    ensures IsRun(s, Serving(r, entry, cs))
    ensures var end := Serve(Spot(s.db, entry), cs);
            After(s, Serving(r, entry, cs)) == State(end.db, s.requests[r := end.pc])
  {
    if cs == [] {
      assert [] + [Start(r, entry)] == [Start(r, entry)];
      RunExtends(s, [], Start(r, entry));
    } else {
      var front, c := cs[..|cs| - 1], cs[|cs| - 1];
      ServingIsARun(s, r, entry, front);
      RunExtends(s, Serving(r, entry, front), Advance(r, c));
    }
  }
}
