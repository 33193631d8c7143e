/** Serving one request without interruption, a step at a time. */
module BookingServing {
  import opened Common
  import opened BookingTypes
  import opened BookingStore
  import opened BookingProtocol
  import opened BookingInvariant
  import opened BookingSerial

  // The machine, started on the request, gets to this database and position by these steps.
  ghost predicate Served(before: Db, entry: Pc, steps: seq<Choice>, db: Db, pc: Pc) {
    CanServe(Spot(before, entry), steps) && Serve(Spot(before, entry), steps) == Spot(db, pc)
  }

  ghost predicate ServedBy(before: Db, entry: Pc, steps: seq<Choice>, db: Db, plan: Plan) {
    Served(before, entry, steps, Perform(db, plan.write), Outcome(db, plan))
  }

  lemma OneMore(before: Db, entry: Pc, steps: seq<Choice>, db: Db, pc: Pc, c: Choice)
    requires Served(before, entry, steps, db, pc) && !pc.Done? && c.newId !in db.issued
    ensures ServedBy(before, entry, steps + [c], db, PlanOf(db, pc, c))
  {
    ServeExtends(Spot(before, entry), steps, c);
  }

  lemma NothingServed(db: Db, entry: Pc)
    ensures Served(db, entry, [], db, entry)
  {
  }

  // A step that writes nothing and goes one way.
  lemma StartServes(db: Db, entry: Pc, c: Choice, next: Pc)
    requires !entry.Done? && c.newId !in db.issued && PlanOf(db, entry, c) == Go(next)
    ensures Served(db, entry, [c], db, next)
  {
    assert [] + [c] == [c];
    ServeExtends(Spot(db, entry), [], c);
  }

  // Where a status update leaves the database and the request, whether or not a fault strikes it.
  ghost predicate ServedUpdate(before: Db, entry: Pc, steps: seq<Choice>, db: Db, plan: Plan, fault: Fault) {
    Served(before, entry, steps, if fault == NotWritten then db else Perform(db, plan.write),
           if fault == NoFault && Succeeds(db, plan.write) then plan.ok else plan.fail)
  }

  lemma UpdateServes(before: Db, entry: Pc, steps: seq<Choice>, db: Db, pc: Pc, c: Choice, plan: Plan)
    requires Served(before, entry, steps, db, pc) && !pc.Done? && c.newId !in db.issued
    requires Intended(db, pc, c) == plan && IsUpdate(plan.write)
    ensures ServedUpdate(before, entry, steps + [c], db, plan, c.fault)
  {
    hide Served;
    OneMore(before, entry, steps, db, pc, c);
  }

  lemma CancelServes(before: Db, entry: Pc, steps: seq<Choice>, db: Db, id: Id, who: Canceller, recorded: Option<int>, refund: Option<Id>, c: Choice)
    requires Served(before, entry, steps, db, CancelWriting(id, who, recorded, refund)) && c.newId !in db.issued
    ensures ServedUpdate(before, entry, steps + [c], db, Plan(Cancel(id, who, recorded, refund), Done(CancelOk(id)), Done(Conflict)), c.fault)
  {
    hide Served;
    UpdateServes(before, entry, steps, db, CancelWriting(id, who, recorded, refund), c, Plan(Cancel(id, who, recorded, refund), Done(CancelOk(id)), Done(Conflict)));
  }

  lemma CaptureServes(before: Db, entry: Pc, steps: seq<Choice>, db: Db, id: Id, order: Option<Id>, payment: Id, c: Choice)
    requires Served(before, entry, steps, db, HookWriting(id, PaymentCaptured(order, Some(payment)))) && c.newId !in db.issued
    ensures ServedUpdate(before, entry, steps + [c], db, Plan(Capture(id, payment), Done(HookOk), Done(HookOk)), c.fault)
  {
    hide Served;
    UpdateServes(before, entry, steps, db, HookWriting(id, PaymentCaptured(order, Some(payment))), c, Plan(Capture(id, payment), Done(HookOk), Done(HookOk)));
  }

  lemma FailPaymentServes(before: Db, entry: Pc, steps: seq<Choice>, db: Db, id: Id, order: Option<Id>, c: Choice)
    requires Served(before, entry, steps, db, HookWriting(id, PaymentFailure(order))) && c.newId !in db.issued
    ensures ServedUpdate(before, entry, steps + [c], db, Plan(FailPayment(id), Done(HookOk), Done(HookOk)), c.fault)
  {
    hide Served;
    UpdateServes(before, entry, steps, db, HookWriting(id, PaymentFailure(order)), c, Plan(FailPayment(id), Done(HookOk), Done(HookOk)));
  }

  lemma AssignServes(before: Db, entry: Pc, steps: seq<Choice>, db: Db, id: Id, person: Id, c: Choice)
    requires Served(before, entry, steps, db, AssignWriting(id, person)) && c.newId !in db.issued
    ensures ServedUpdate(before, entry, steps + [c], db, Plan(AssignPerson(id, person), OtpIssuing(Arrival, id), Done(Conflict)), c.fault)
  {
    hide Served;
    UpdateServes(before, entry, steps, db, AssignWriting(id, person), c, Plan(AssignPerson(id, person), OtpIssuing(Arrival, id), Done(Conflict)));
  }

  lemma MarkServes(before: Db, entry: Pc, steps: seq<Choice>, db: Db, id: Id, c: Choice)
    requires Served(before, entry, steps, db, MarkWriting(id)) && c.newId !in db.issued
    ensures ServedUpdate(before, entry, steps + [c], db, Plan(RequestCompletion(id), OtpIssuing(Completion, id), Done(Conflict)), c.fault)
  {
    hide Served;
    UpdateServes(before, entry, steps, db, MarkWriting(id), c, Plan(RequestCompletion(id), OtpIssuing(Completion, id), Done(Conflict)));
  }

  lemma ConfirmServes(before: Db, entry: Pc, steps: seq<Choice>, db: Db, id: Id, k: nat, digest: string, c: Choice)
    requires Served(before, entry, steps, db, OtpWriting(Arrival, id, k, digest)) && c.newId !in db.issued
    ensures ServedUpdate(before, entry, steps + [c], db, Plan(ConfirmArrival(id), Done(OtpAccepted(Arrival, id, k, digest)), Done(BadRequest)), c.fault)
  {
    hide Served;
    UpdateServes(before, entry, steps, db, OtpWriting(Arrival, id, k, digest), c, Plan(ConfirmArrival(id), Done(OtpAccepted(Arrival, id, k, digest)), Done(BadRequest)));
  }

  lemma CompleteServes(before: Db, entry: Pc, steps: seq<Choice>, db: Db, id: Id, k: nat, digest: string, c: Choice)
    requires Served(before, entry, steps, db, OtpWriting(Completion, id, k, digest)) && c.newId !in db.issued
    ensures ServedUpdate(before, entry, steps + [c], db, Plan(Complete(id), Done(OtpAccepted(Completion, id, k, digest)), Done(BadRequest)), c.fault)
  {
    hide Served;
    UpdateServes(before, entry, steps, db, OtpWriting(Completion, id, k, digest), c, Plan(Complete(id), Done(OtpAccepted(Completion, id, k, digest)), Done(BadRequest)));
  }

  // The OTP that ends an assignment or a completion request.
  lemma IssueServes(before: Db, entry: Pc, steps: seq<Choice>, db: Db, kind: OtpKind, id: Id, c: Choice)
    requires Served(before, entry, steps, db, OtpIssuing(kind, id)) && c.newId !in db.issued
    ensures Served(before, entry, steps + [c], Perform(db, InsertOtp(NewOtp(kind, id, c.digest, db.now))),
                   Done(if kind.Arrival? then AssignOk(id) else MarkOk(id)))
  {
    hide Served;
    OneMoreOtp(before, entry, steps, db, OtpIssuing(kind, id), c);
  }

  lemma OneMoreCancel(before: Db, entry: Pc, steps: seq<Choice>, db: Db, pc: Pc, c: Choice)
    requires Served(before, entry, steps, db, pc) && c.newId !in db.issued
    requires pc.CancelStart? || pc.CancelRefunding? || pc.CancelWriting?
    ensures ServedBy(before, entry, steps + [c], db, Struck(PlanCancel(db, pc, c), c.fault))
  {
    hide Served;
    CancelPlan(db, pc, c);
    OneMore(before, entry, steps, db, pc, c);
  }

  lemma OneMoreCreate(before: Db, entry: Pc, steps: seq<Choice>, db: Db, pc: Pc, c: Choice)
    requires Served(before, entry, steps, db, pc) && c.newId !in db.issued
    requires pc.CreateStart? || pc.CreateOrdering? || pc.CreateInserting? || pc.CreateReading?
    ensures ServedBy(before, entry, steps + [c], db, Struck(PlanCreate(db, pc, c), c.fault))
  {
    hide Served;
    CreatePlan(db, pc, c);
    OneMore(before, entry, steps, db, pc, c);
  }

  lemma OneMoreHook(before: Db, entry: Pc, steps: seq<Choice>, db: Db, pc: Pc, c: Choice)
    requires Served(before, entry, steps, db, pc) && c.newId !in db.issued
    requires pc.HookStart? || pc.HookFinding? || pc.HookWriting?
    ensures ServedBy(before, entry, steps + [c], db, Struck(PlanHook(db, pc), c.fault))
  {
    hide Served;
    HookPlan(db, pc, c);
    OneMore(before, entry, steps, db, pc, c);
  }

  lemma OneMoreAssign(before: Db, entry: Pc, steps: seq<Choice>, db: Db, pc: Pc, c: Choice)
    requires Served(before, entry, steps, db, pc) && c.newId !in db.issued
    requires pc.AssignStart? || pc.AssignWriting?
    ensures ServedBy(before, entry, steps + [c], db, Struck(PlanAssign(db, pc), c.fault))
  {
    hide Served;
    AssignPlan(db, pc, c);
    OneMore(before, entry, steps, db, pc, c);
  }

  lemma OneMoreMark(before: Db, entry: Pc, steps: seq<Choice>, db: Db, pc: Pc, c: Choice)
    requires Served(before, entry, steps, db, pc) && c.newId !in db.issued
    requires pc.MarkStart? || pc.MarkWriting?
    ensures ServedBy(before, entry, steps + [c], db, Struck(PlanMark(db, pc), c.fault))
  {
    hide Served;
    MarkPlan(db, pc, c);
    OneMore(before, entry, steps, db, pc, c);
  }

  lemma OneMoreOtp(before: Db, entry: Pc, steps: seq<Choice>, db: Db, pc: Pc, c: Choice)
    requires Served(before, entry, steps, db, pc) && c.newId !in db.issued
    requires pc.OtpIssuing? || pc.OtpStart? || pc.OtpFinding? || pc.OtpMarking? || pc.OtpWriting?
    ensures ServedBy(before, entry, steps + [c], db, Struck(PlanOtp(db, pc, c), c.fault))
  {
    hide Served;
    OtpPlan(db, pc, c);
    OneMore(before, entry, steps, db, pc, c);
  }

  lemma OneMoreReview(before: Db, entry: Pc, steps: seq<Choice>, db: Db, pc: Pc, c: Choice)
    requires Served(before, entry, steps, db, pc) && c.newId !in db.issued
    requires pc.ReviewStart? || pc.ReviewFinding? || pc.ReviewInserting?
    ensures ServedBy(before, entry, steps + [c], db, Struck(PlanReview(db, pc), c.fault))
  {
    hide Served;
    ReviewPlan(db, pc, c);
    OneMore(before, entry, steps, db, pc, c);
  }

  // The first step of a request only reads and checks.
  lemma CancelStarts(db: Db, entry: Pc, c: Choice)
    requires entry.CancelStart? && c.newId !in db.issued
    ensures Served(db, entry, [c], db, PlanCancel(db, entry, c).ok)
  {
    hide Served;
    CancelPlan(db, entry, c);
    StartServes(db, entry, c, PlanOf(db, entry, c).ok);
  }

  lemma CreateStarts(db: Db, entry: Pc, c: Choice)
    requires entry.CreateStart? && c.newId !in db.issued
    ensures Served(db, entry, [c], db, PlanCreate(db, entry, c).ok)
  {
    hide Served;
    CreatePlan(db, entry, c);
    StartServes(db, entry, c, PlanOf(db, entry, c).ok);
  }

  lemma AssignStarts(db: Db, entry: Pc, c: Choice)
    requires entry.AssignStart? && c.newId !in db.issued
    ensures Served(db, entry, [c], db, PlanAssign(db, entry).ok)
  {
    hide Served;
    AssignPlan(db, entry, c);
    StartServes(db, entry, c, PlanOf(db, entry, c).ok);
  }

  lemma MarkStarts(db: Db, entry: Pc, c: Choice)
    requires entry.MarkStart? && c.newId !in db.issued
    ensures Served(db, entry, [c], db, PlanMark(db, entry).ok)
  {
    hide Served;
    MarkPlan(db, entry, c);
    StartServes(db, entry, c, PlanOf(db, entry, c).ok);
  }

  lemma OtpStarts(db: Db, entry: Pc, c: Choice)
    requires entry.OtpStart? && c.newId !in db.issued
    ensures Served(db, entry, [c], db, PlanOtp(db, entry, c).ok)
  {
    hide Served;
    OtpPlan(db, entry, c);
    StartServes(db, entry, c, PlanOf(db, entry, c).ok);
  }

  lemma ReviewStarts(db: Db, entry: Pc, c: Choice)
    requires entry.ReviewStart? && c.newId !in db.issued
    ensures Served(db, entry, [c], db, PlanReview(db, entry).ok)
  {
    hide Served;
    ReviewPlan(db, entry, c);
    StartServes(db, entry, c, PlanOf(db, entry, c).ok);
  }

  lemma RefundServes(before: Db, entry: Pc, steps: seq<Choice>, db: Db, id: Id, who: Canceller, payment: Id,
                     amount: int, c: Choice)
    requires Served(before, entry, steps, db, CancelRefunding(id, who, payment, amount)) && c.newId !in db.issued
    requires c.gatewayOk
    ensures Served(before, entry, steps + [c],
                   if c.fault == NotWritten then
                     db
                   else
                     Perform(db, RefundPayment(Refund(id, payment, amount, c.newId))),
                   if c.fault == NoFault then CancelWriting(id, who, Some(amount), Some(c.newId)) else Done(BadRequest))
  {
    hide Served;
    OneMoreCancel(before, entry, steps, db, CancelRefunding(id, who, payment, amount), c);
  }

  predicate AllFaultless(steps: seq<Choice>) {
    forall i :: 0 <= i < |steps| ==> steps[i].fault == NoFault
  }

  // A request that has come only so far.
  lemma PartlyServed(s: State, r: Id, entry: Pc, steps: seq<Choice>, db: Db, pc: Pc) returns (acts: seq<Action>)
    requires IsEntry(entry) && r !in s.requests && Served(s.db, entry, steps, db, pc)
    ensures IsRun(s, acts) && After(s, acts) == State(db, s.requests[r := pc])
  {
    ServingIsARun(s, r, entry, steps);
    acts := Serving(r, entry, steps);
  }

  // A handled request is one of the runs of the machine, and leaves every other request where it was.
  lemma HandledRequestIsARun(s: State, r: Id, entry: Pc, steps: seq<Choice>, db: Db, reply: Reply)
    requires IsEntry(entry) && r !in s.requests && Served(s.db, entry, steps, db, Done(reply))
    ensures IsRun(s, Serving(r, entry, steps))
    ensures After(s, Serving(r, entry, steps)) == State(db, s.requests[r := Done(reply)])
  {
    ServingIsARun(s, r, entry, steps);
  }

  lemma SerialRunExtends(acts: seq<Action>, a: Action)
    requires IsRun(Init, acts) && IsSerial(Init, acts) && Enabled(After(Init, acts), a)
    requires (a.Start? ==> Idle(After(Init, acts))) && Faultless(a)
    ensures IsRun(Init, acts + [a]) && IsSerial(Init, acts + [a])
    ensures After(Init, acts + [a]) == Step(After(Init, acts), a)
  {
    RunExtends(Init, acts, a);
    assert (acts + [a])[..|acts|] == acts;
  }

  lemma {:induction false} ServingIsSerial(acts: seq<Action>, r: Id, entry: Pc, steps: seq<Choice>)
    requires IsRun(Init, acts) && IsSerial(Init, acts) && Idle(After(Init, acts))
    requires IsEntry(entry) && r !in After(Init, acts).requests && CanServe(Spot(After(Init, acts).db, entry), steps)
    requires AllFaultless(steps)
    ensures IsRun(Init, acts + Serving(r, entry, steps)) && IsSerial(Init, acts + Serving(r, entry, steps))
    ensures var s := After(Init, acts);
            var end := Serve(Spot(s.db, entry), steps);
            After(Init, acts + Serving(r, entry, steps)) == State(end.db, s.requests[r := end.pc])
  {
    if steps == [] {
      SerialRunExtends(acts, Start(r, entry));
    } else {
      var n := |steps| - 1;
      ServingIsSerial(acts, r, entry, steps[..n]);
      assert acts + Serving(r, entry, steps) == (acts + Serving(r, entry, steps[..n])) + [Advance(r, steps[n])];
      AdvanceServed(acts + Serving(r, entry, steps[..n]), After(Init, acts), r,
                    Serve(Spot(After(Init, acts).db, entry), steps[..n]), steps[n]);
    }
  }

  lemma AdvanceServed(acts: seq<Action>, s: State, r: Id, mid: Spot, c: Choice)
    requires IsRun(Init, acts) && IsSerial(Init, acts)
    requires After(Init, acts) == State(mid.db, s.requests[r := mid.pc]) && CanMove(mid, c)
    requires c.fault == NoFault
    ensures var a, end := Advance(r, c), Move(mid, c);
            && IsRun(Init, acts + [a]) && IsSerial(Init, acts + [a])
            && After(Init, acts + [a]) == State(end.db, s.requests[r := end.pc])
  {
    SerialRunExtends(acts, Advance(r, c));
    StepIsMove(After(Init, acts), r, c);
    assert s.requests[r := mid.pc][r := Move(mid, c).pc] == s.requests[r := Move(mid, c).pc];
  }

  // Requests handled one after the other therefore make up a serial run, in which between two of them
  // every request has been answered.
  lemma HandledRequestsAreSerial(acts: seq<Action>, r: Id, entry: Pc, steps: seq<Choice>, db: Db, reply: Reply)
    requires IsRun(Init, acts) && IsSerial(Init, acts) && Idle(After(Init, acts))
    requires IsEntry(entry) && r !in After(Init, acts).requests
    requires Served(After(Init, acts).db, entry, steps, db, Done(reply)) && AllFaultless(steps)
    ensures var more := acts + Serving(r, entry, steps);
            && IsRun(Init, more) && IsSerial(Init, more) && Idle(After(Init, more))
            && After(Init, more) == State(db, After(Init, acts).requests[r := Done(reply)])
  {
    ServingIsSerial(acts, r, entry, steps);
  }

  // A step in which the environment has nothing to decide.
  lemma Quiet(db: Db) returns (c: Choice)
    ensures c.newId !in db.issued && c.gatewayOk && c.digest == "" && c.fault == NoFault
  {
    var n := UnusedId(db.issued);
    c := Choice(n, true, "", NoFault);
  }
}
