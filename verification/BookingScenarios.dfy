/**
 Runs that reach the states other results speak about: bookings that are created, paid, served and
 handed over, one request after another.
 */
module BookingScenarios {
  import opened Common
  import opened BookingTypes
  import opened BookingStore
  import opened BookingProtocol
  import opened BookingAccess
  import opened BookingInvariant
  import opened BookingSerial
  import opened BookingServing

  // ------------------------------------------------------------------------------------------
  // Requests that go through
  // ------------------------------------------------------------------------------------------

  lemma TwoUnused(db: Db) returns (x: Id, y: Id)
    ensures x !in db.issued && y !in db.issued && x != y
  {
    x := UnusedId(db.issued);
    y := x + 1;
  }

  function Ordered(db: Db, order: Id): Db {
    db.(issued := db.issued + {order})
  }

  function Stored(db: Db, args: CreateArgs, order: Id, id: Id): Db {
    db.(bookings := db.bookings[id := NewBooking(args, order)], issued := db.issued + {order} + {id})
  }

  // A create request up to the insert.
  lemma Ordering(db: Db, args: CreateArgs, order: Id) returns (steps: seq<Choice>)
    requires args.price >= MIN_AMOUNT && !(Truthy(args.key) && KeyTaken(db.bookings, args.key)) && order !in db.issued
    ensures Served(db, CreateStart(args), steps, Ordered(db, order), CreateInserting(args, order)) && AllFaultless(steps)
  {
    hide Served;
    var c := Choice(order, true, "", NoFault);
    CreateStarts(db, CreateStart(args), c);
    OneMoreCreate(db, CreateStart(args), [c], db, CreateOrdering(args), c);
    steps := [c] + [c];
  }

  lemma Creating(db: Db, args: CreateArgs, order: Id, id: Id) returns (steps: seq<Choice>)
    requires args.price >= MIN_AMOUNT && !KeyTaken(db.bookings, args.key) && !OrderTaken(db.bookings, Some(order))
    requires order !in db.issued && id !in db.issued && order != id
    ensures Served(db, CreateStart(args), steps, Stored(db, args, order, id), Done(Created(args.key, id, Some(order))))
    ensures AllFaultless(steps)
  {
    hide Served;
    var c := Choice(id, true, "", NoFault);
    steps := Ordering(db, args, order);
    OneMoreCreate(db, CreateStart(args), steps, Ordered(db, order), CreateInserting(args, order), c);
    steps := steps + [c];
  }

  // A second booking under the stored empty key fails.
  lemma CreatingAgain(db: Db, args: CreateArgs, order: Id, id: Id) returns (steps: seq<Choice>)
    requires args.price >= MIN_AMOUNT && args.key == Some("") && KeyTaken(db.bookings, args.key)
    requires order !in db.issued && id !in db.issued && order != id
    ensures Served(db, CreateStart(args), steps, Ordered(db, order), Done(CreateRethrown(args.key)))
    ensures AllFaultless(steps)
  {
    hide Served;
    var c := Choice(id, true, "", NoFault);
    steps := Ordering(db, args, order);
    OneMoreCreate(db, CreateStart(args), steps, Ordered(db, order), CreateInserting(args, order), c);
    steps := steps + [c];
  }

  function Claimed(db: Db, event: string): Db {
    db.(events := db.events + {event})
  }

  // A captured event, claimed but not acted on yet.
  lemma Claiming(db: Db, event: string, payload: PaymentEvent) returns (steps: seq<Choice>)
    requires event !in db.events
    ensures Served(db, HookStart(event, payload), steps, Claimed(db, event), HookFinding(payload))
    ensures AllFaultless(steps) && |steps| == 1
  {
    hide Served;
    var c := Quiet(db);
    NothingServed(db, HookStart(event, payload));
    OneMoreHook(db, HookStart(event, payload), [], db, HookStart(event, payload), c);
    steps := [] + [c];
  }

  lemma Capturing(db: Db, event: string, id: Id, payment: Id) returns (steps: seq<Choice>)
    requires event !in db.events && OrdersUnique(db.bookings)
    requires id in db.bookings && db.bookings[id].status == PendingPayment && db.bookings[id].order.Some?
    ensures Served(db, HookStart(event, PaymentCaptured(db.bookings[id].order, Some(payment))), steps,
                   Perform(Claimed(db, event), Capture(id, payment)), Done(HookOk))
    ensures AllFaultless(steps)
  {
    hide Served;
    var payload := PaymentCaptured(db.bookings[id].order, Some(payment));
    var c := Quiet(db);
    steps := Claiming(db, event, payload);
    var claimed := Claimed(db, event);
    assert FindByOrder(claimed.bookings, payload.order) == Some(id);
    OneMoreHook(db, HookStart(event, payload), steps, claimed, HookFinding(payload), c);
    steps := steps + [c];
    CaptureServes(db, HookStart(event, payload), steps, claimed, id, payload.order, payment, c);
    steps := steps + [c];
  }

  function Issued(db: Db, w: Write, kind: OtpKind, id: Id, digest: string): Db
    requires IsUpdate(w) && w.id in db.bookings
  {
    db.(bookings := db.bookings[w.id := Updated(db.bookings[w.id], w, db.now)],
        otps := db.otps + [NewOtp(kind, id, digest, db.now)])
  }

  lemma Assigning(db: Db, id: Id, person: Id, digest: string) returns (steps: seq<Choice>)
    requires id in db.bookings && db.bookings[id].status == Confirmed
    ensures Served(db, AssignStart(id, db.bookings[id].provider, person), steps,
                   Issued(db, AssignPerson(id, person), Arrival, id, digest), Done(AssignOk(id)))
    ensures AllFaultless(steps)
  {
    hide Served;
    var entry := AssignStart(id, db.bookings[id].provider, person);
    var c := Quiet(db);
    AssignStarts(db, entry, c);
    AssignServes(db, entry, [c], db, id, person, c);
    var env := c.(digest := digest);
    IssueServes(db, entry, [c] + [c], Perform(db, AssignPerson(id, person)), Arrival, id, env);
    steps := [c] + [c] + [env];
  }

  lemma Marking(db: Db, id: Id, digest: string) returns (steps: seq<Choice>)
    requires id in db.bookings && db.bookings[id].status == ArrivalConfirmed
    ensures Served(db, MarkStart(id, db.bookings[id].provider), steps,
                   Issued(db, RequestCompletion(id), Completion, id, digest), Done(MarkOk(id)))
    ensures AllFaultless(steps)
  {
    hide Served;
    var entry := MarkStart(id, db.bookings[id].provider);
    var c := Quiet(db);
    MarkStarts(db, entry, c);
    MarkServes(db, entry, [c], db, id, c);
    var env := c.(digest := digest);
    IssueServes(db, entry, [c] + [c], Perform(db, RequestCompletion(id)), Completion, id, env);
    steps := [c] + [c] + [env];
  }

  // Redeeming the newest active OTP, up to the update of the booking.
  lemma Redeeming(db: Db, kind: OtpKind, id: Id, k: nat) returns (steps: seq<Choice>)
    requires id in db.bookings && LatestActive(db.otps, id, kind, db.now) == Some(k)
    ensures Served(db, OtpStart(kind, id, Redeemer(db.bookings[id], kind), db.otps[k].digest), steps, Perform(db, MarkUsed(k)),
                   OtpWriting(kind, id, k, db.otps[k].digest))
    ensures AllFaultless(steps) && |steps| == 3
  {
    hide Served;
    var digest := db.otps[k].digest;
    var entry := OtpStart(kind, id, Redeemer(db.bookings[id], kind), digest);
    var c := Quiet(db);
    OtpStarts(db, entry, c);
    OneMoreOtp(db, entry, [c], db, OtpFinding(kind, id, digest), c);
    OneMoreOtp(db, entry, [c] + [c], db, OtpMarking(kind, id, k, digest), c);
    steps := [c] + [c] + [c];
  }

  lemma Confirming(db: Db, id: Id, k: nat) returns (steps: seq<Choice>)
    requires id in db.bookings && db.bookings[id].status == Confirmed
    requires LatestActive(db.otps, id, Arrival, db.now) == Some(k)
    ensures Served(db, OtpStart(Arrival, id, db.bookings[id].provider, db.otps[k].digest), steps,
                   Perform(Perform(db, MarkUsed(k)), ConfirmArrival(id)),
                   Done(OtpAccepted(Arrival, id, k, db.otps[k].digest)))
    ensures AllFaultless(steps)
  {
    hide Served;
    var c := Quiet(db);
    steps := Redeeming(db, Arrival, id, k);
    ConfirmServes(db, OtpStart(Arrival, id, db.bookings[id].provider, db.otps[k].digest), steps, Perform(db, MarkUsed(k)),
                  id, k, db.otps[k].digest, c);
    steps := steps + [c];
  }

  lemma Completing(db: Db, id: Id, k: nat) returns (steps: seq<Choice>)
    requires id in db.bookings && db.bookings[id].status == PendingCompletionVerification
    requires LatestActive(db.otps, id, Completion, db.now) == Some(k)
    ensures Served(db, OtpStart(Completion, id, db.bookings[id].user, db.otps[k].digest), steps,
                   Perform(Perform(db, MarkUsed(k)), Complete(id)),
                   Done(OtpAccepted(Completion, id, k, db.otps[k].digest)))
    ensures AllFaultless(steps)
  {
    hide Served;
    var c := Quiet(db);
    steps := Redeeming(db, Completion, id, k);
    CompleteServes(db, OtpStart(Completion, id, db.bookings[id].user, db.otps[k].digest), steps,
                   Perform(db, MarkUsed(k)), id, k, db.otps[k].digest, c);
    steps := steps + [c];
  }

  // ------------------------------------------------------------------------------------------
  // One request after another, from the empty database on
  // ------------------------------------------------------------------------------------------

  ghost predicate Calm(acts: seq<Action>) {
    IsRun(Init, acts) && IsSerial(Init, acts) && Idle(After(Init, acts))
  }

  // One more request, answered.
  lemma Handled(acts: seq<Action>, entry: Pc, steps: seq<Choice>, db: Db, reply: Reply)
    returns (more: seq<Action>, r: Id)
    requires Calm(acts) && IsEntry(entry) && AllFaultless(steps)
    requires Served(After(Init, acts).db, entry, steps, db, Done(reply))
    ensures r !in After(Init, acts).requests
    ensures Calm(more) && After(Init, more) == State(db, After(Init, acts).requests[r := Done(reply)])
  {
    hide Served, IsRun, IsSerial;
    r := UnusedId(After(Init, acts).requests.Keys);
    HandledRequestsAreSerial(acts, r, entry, steps, db, reply);
    more := acts + Serving(r, entry, steps);
  }

  lemma Waited(acts: seq<Action>, elapsed: nat) returns (more: seq<Action>)
    requires Calm(acts)
    ensures Calm(more)
    ensures After(Init, more) == After(Init, acts).(db := After(Init, acts).db.(now := After(Init, acts).db.now + elapsed))
  {
    SerialRunExtends(acts, Tick(elapsed));
    TickIs(After(Init, acts), elapsed);
    more := acts + [Tick(elapsed)];
  }

  lemma CalmStart()
    ensures Calm([]) && After(Init, []) == Init
  {
  }

  const BOOKED: Id := 1

  lemma Pending(args: CreateArgs) returns (acts: seq<Action>)
    requires args.price >= MIN_AMOUNT
    ensures Calm(acts)
    ensures After(Init, acts).db == Stored(EmptyDb, args, 0, BOOKED)
  {
    hide Served, Calm;
    CalmStart();
    var steps := Creating(EmptyDb, args, 0, BOOKED);
    var r: Id;
    acts, r := Handled([], CreateStart(args), steps, Stored(EmptyDb, args, 0, BOOKED),
                       Created(args.key, BOOKED, Some(0)));
  }

  function PaidRow(args: CreateArgs): Booking {
    NewBooking(args, 0).(status := Confirmed, payment := Some(2), confirmedAt := Some(0))
  }

  function PaidDb(args: CreateArgs): Db {
    Db(map[BOOKED := PaidRow(args)], [], {"paid"}, [], [], {0, 1}, 0)
  }

  lemma Paid(args: CreateArgs) returns (acts: seq<Action>)
    requires args.price >= MIN_AMOUNT
    ensures Calm(acts)
    ensures After(Init, acts).db == PaidDb(args)
  {
    hide Served, Calm;
    acts := Pending(args);
    var db := Stored(EmptyDb, args, 0, BOOKED);
    var steps := Capturing(db, "paid", BOOKED, 2);
    var entry := HookStart("paid", PaymentCaptured(Some(0), Some(2)));
    assert Perform(Claimed(db, "paid"), Capture(BOOKED, 2)) == PaidDb(args);
    var r: Id;
    acts, r := Handled(acts, entry, steps, PaidDb(args), HookOk);
  }

  // A paid booking with a service person and an active arrival OTP.
  function AssignedDb(args: CreateArgs): Db {
    PaidDb(args).(bookings := map[BOOKED := PaidRow(args).(person := Some(3))],
                  otps := [Otp(BOOKED, Arrival, "arrival", OTP_TTL, None)])
  }

  lemma Assigned(args: CreateArgs) returns (acts: seq<Action>)
    requires args.price >= MIN_AMOUNT
    ensures Calm(acts)
    ensures After(Init, acts).db == AssignedDb(args)
  {
    hide Served, Calm;
    acts := Paid(args);
    var steps := Assigning(PaidDb(args), BOOKED, 3, "arrival");
    assert Issued(PaidDb(args), AssignPerson(BOOKED, 3), Arrival, BOOKED, "arrival") == AssignedDb(args);
    var r: Id;
    acts, r := Handled(acts, AssignStart(BOOKED, args.provider, 3), steps, AssignedDb(args), AssignOk(BOOKED));
  }

  function ArrivedDb(args: CreateArgs): Db {
    AssignedDb(args).(bookings := map[BOOKED := PaidRow(args).(person := Some(3), status := ArrivalConfirmed,
                                                              arrivalConfirmedAt := Some(0))],
                      otps := [Otp(BOOKED, Arrival, "arrival", OTP_TTL, Some(0))])
  }

  lemma ArrivalOtpIsActive(args: CreateArgs)
    ensures LatestActive(AssignedDb(args).otps, BOOKED, Arrival, 0) == Some(0)
  {
  }

  lemma Arrived(args: CreateArgs) returns (acts: seq<Action>)
    requires args.price >= MIN_AMOUNT
    ensures Calm(acts)
    ensures After(Init, acts).db == ArrivedDb(args)
  {
    hide Served, Calm;
    acts := Assigned(args);
    ArrivalOtpIsActive(args);
    var steps := Confirming(AssignedDb(args), BOOKED, 0);
    assert Perform(Perform(AssignedDb(args), MarkUsed(0)), ConfirmArrival(BOOKED)) == ArrivedDb(args);
    var r: Id;
    acts, r := Handled(acts, OtpStart(Arrival, BOOKED, args.provider, "arrival"), steps, ArrivedDb(args),
                       OtpAccepted(Arrival, BOOKED, 0, "arrival"));
  }

  function HandedOverDb(args: CreateArgs): Db {
    ArrivedDb(args).(bookings := map[BOOKED := ArrivedDb(args).bookings[BOOKED].(status := PendingCompletionVerification)],
                     otps := ArrivedDb(args).otps + [Otp(BOOKED, Completion, "completion", OTP_TTL, None)])
  }

  // The provider has marked the booking complete, and its completion OTP is active.
  lemma HandedOver(args: CreateArgs) returns (acts: seq<Action>)
    requires args.price >= MIN_AMOUNT
    ensures Calm(acts)
    ensures After(Init, acts).db == HandedOverDb(args)
  {
    hide Served, Calm;
    acts := Arrived(args);
    var steps := Marking(ArrivedDb(args), BOOKED, "completion");
    assert Issued(ArrivedDb(args), RequestCompletion(BOOKED), Completion, BOOKED, "completion") == HandedOverDb(args);
    var r: Id;
    acts, r := Handled(acts, MarkStart(BOOKED, args.provider), steps, HandedOverDb(args), MarkOk(BOOKED));
  }

  // ------------------------------------------------------------------------------------------
  // Requests that interleave, without faults
  // ------------------------------------------------------------------------------------------

  ghost predicate FaultlessRun(acts: seq<Action>) {
    IsRun(Init, acts) && forall i :: 0 <= i < |acts| ==> Faultless(acts[i])
  }

  lemma {:induction false} SerialIsFaultless(acts: seq<Action>)
    requires IsRun(Init, acts) && IsSerial(Init, acts)
    ensures FaultlessRun(acts)
  {
    if acts == [] {
    } else {
      SerialIsFaultless(acts[..|acts| - 1]);
      forall i | 0 <= i < |acts| ensures Faultless(acts[i]) {
        assert i < |acts| - 1 ==> acts[i] == acts[..|acts| - 1][i];
      }
    }
  }

  lemma CalmIsFaultless(acts: seq<Action>)
    requires Calm(acts)
    ensures FaultlessRun(acts)
  {
    SerialIsFaultless(acts);
  }

  lemma {:induction false} ServingIsFaultless(r: Id, entry: Pc, steps: seq<Choice>)
    requires AllFaultless(steps)
    ensures forall i :: 0 <= i < |Serving(r, entry, steps)| ==> Faultless(Serving(r, entry, steps)[i])
  {
    if steps == [] {
    } else {
      ServingIsFaultless(r, entry, steps[..|steps| - 1]);
    }
  }

  // One more request, that has come only so far.
  lemma Begun(acts: seq<Action>, r: Id, entry: Pc, steps: seq<Choice>, db: Db, pc: Pc) returns (more: seq<Action>)
    requires FaultlessRun(acts) && IsEntry(entry) && AllFaultless(steps) && r !in After(Init, acts).requests
    requires Served(After(Init, acts).db, entry, steps, db, pc)
    ensures FaultlessRun(more) && After(Init, more) == State(db, After(Init, acts).requests[r := pc])
  {
    hide IsRun;
    ServingIsARun(After(Init, acts), r, entry, steps);
    ServingIsFaultless(r, entry, steps);
    RunsConcat(Init, acts, Serving(r, entry, steps));
    more := acts + Serving(r, entry, steps);
  }

  lemma GoneOn(acts: seq<Action>, r: Id, c: Choice) returns (more: seq<Action>)
    requires FaultlessRun(acts) && Enabled(After(Init, acts), Advance(r, c)) && c.fault == NoFault
    ensures FaultlessRun(more)
    ensures var s := After(Init, acts);
            var to := Move(Spot(s.db, s.requests[r]), c);
            After(Init, more) == State(to.db, s.requests[r := to.pc])
  {
    hide IsRun, Move;
    StepIsMove(After(Init, acts), r, c);
    RunExtends(Init, acts, Advance(r, c));
    more := acts + [Advance(r, c)];
  }

  // ------------------------------------------------------------------------------------------
  // Two bookings under the empty key
  // ------------------------------------------------------------------------------------------

  // A user who sends the empty key twice has the second request fail.
  lemma EmptyKeyIsRethrown(args: CreateArgs) returns (acts: seq<Action>, p: Id, q: Id)
    requires args.price >= MIN_AMOUNT && args.key == Some("")
    ensures Calm(acts)
    ensures p in After(Init, acts).requests && q in After(Init, acts).requests
    ensures After(Init, acts).requests[p] == Done(Created(Some(""), BOOKED, Some(0)))
    ensures After(Init, acts).requests[q] == Done(CreateRethrown(Some("")))
  {
    hide Served, Calm;
    CalmStart();
    var db := Stored(EmptyDb, args, 0, BOOKED);
    var steps := Creating(EmptyDb, args, 0, BOOKED);
    acts, p := Handled([], CreateStart(args), steps, db, Created(args.key, BOOKED, Some(0)));
    assert db.bookings[BOOKED].key == args.key;
    steps := CreatingAgain(db, args, 2, 3);
    acts, q := Handled(acts, CreateStart(args), steps, Ordered(db, 2), CreateRethrown(args.key));
  }

  // A second user who sends a key that is taken is answered with the first user's booking.
  lemma KeyOfAnotherIsAnswered(args: CreateArgs, other: Id) returns (acts: seq<Action>, r: Id, c: Choice)
    requires args.price >= MIN_AMOUNT && Truthy(args.key) && other != args.user
    ensures IsRun(Init, acts) && IsSerial(Init, acts) && Enabled(After(Init, acts), Advance(r, c)) && c.fault == NoFault
    ensures After(Init, acts).requests[r] == CreateStart(args.(user := other))
    ensures Step(After(Init, acts), Advance(r, c)).requests[r] == Done(Created(args.key, BOOKED, Some(0)))
    ensures After(Init, acts).db.bookings == map[BOOKED := NewBooking(args, 0)]
  {
    hide IsRun, IsSerial, PlanOf, Intended;
    acts := Pending(args);
    var entry, db := CreateStart(args.(user := other)), Stored(EmptyDb, args, 0, BOOKED);
    r := UnusedId(After(Init, acts).requests.Keys);
    SerialRunExtends(acts, Start(r, entry));
    acts := acts + [Start(r, entry)];
    c := Quiet(db);
    StepIsMove(After(Init, acts), r, c);
    CreatePlan(db, entry, c);
    assert db.bookings[BOOKED].key == args.key;
    assert FindByKey(db.bookings, args.key).Some?;
  }
}
