/**
 Payment events in the machine, where claiming an event and acting on it are separate steps: what becomes
 of an event whose claimer dies, and where a payment on a booking comes from.
 */
module BookingEvents {
  import opened Common
  import opened BookingTypes
  import opened BookingStore
  import opened BookingProtocol
  import opened BookingInvariant
  import opened BookingSerial
  import opened BookingServing
  import opened BookingScenarios
  import opened PaymentWebhook

  // ------------------------------------------------------------------------------------------
  // An event that is claimed and not acted on
  // ------------------------------------------------------------------------------------------

  // A request that cannot settle the payment of the booking with this order.
  predicate Harmless(pc: Pc, event: string, id: Id, order: Option<Id>) {
    match pc
    case HookStart(e, payload) => e == event || !Names(payload, order)
    case HookFinding(payload) => !Names(payload, order)
    case HookWriting(booking, _) => booking != id
    case _ => true
  }

  // Where the request that claimed the event can stand: about to look the booking up, about to write, or
  // answered.
  predicate Claims(pc: Pc, id: Id, payload: PaymentEvent) {
    pc == HookFinding(payload) || pc == HookWriting(id, payload) || pc == Done(HookOk)
  }

  // Request r has claimed the event of a captured payment, the booking is not paid, and nobody else brings
  // an event for that order.
  ghost predicate Unpaid(s: State, r: Id, event: string, id: Id, payload: PaymentEvent) {
    && event in s.db.events
    && id in s.db.bookings && payload.PaymentCaptured? && Names(payload, s.db.bookings[id].order)
    && s.db.bookings[id].status in {PendingPayment, Cancelled} && s.db.bookings[id].payment.None?
    && r in s.requests && Claims(s.requests[r], id, payload)
    && forall q :: q in s.requests && q != r ==> Harmless(s.requests[q], event, id, payload.order)
  }

  // No other event names the order.
  predicate BringsNoOther(a: Action, event: string, order: Option<Id>) {
    match a
    case Start(_, HookStart(e, payload)) => e == event || !Names(payload, order)
    case _ => true
  }

  ghost predicate AllBringNoOther(acts: seq<Action>, event: string, order: Option<Id>) {
    forall i :: 0 <= i < |acts| ==> BringsNoOther(acts[i], event, order)
  }

  // The claimer writes while the booking is pending, and no fault prevents the update.
  ghost predicate Processes(s: State, a: Action, r: Id, id: Id) {
    && a.Advance? && a.request == r && a.choice.fault != NotWritten
    && r in s.requests && s.requests[r].HookWriting?
    && id in s.db.bookings && s.db.bookings[id].status == PendingPayment
  }

  lemma WriteLeavesUnpaid(db: Db, w: Write, id: Id)
    requires id in db.bookings && db.bookings[id].status in {PendingPayment, Cancelled} && db.bookings[id].payment.None?
    requires w.InsertBooking? ==> w.id !in db.bookings
    requires (w.Capture? || w.FailPayment?) ==> w.id != id
    ensures var after := Perform(db, w);
            && id in after.bookings && after.bookings[id].order == db.bookings[id].order
            && after.bookings[id].status in {PendingPayment, Cancelled} && after.bookings[id].payment.None?
            && db.events <= after.events
  {
  }

  lemma HarmlessNext(db: Db, pc: Pc, c: Choice, event: string, id: Id)
    requires event in db.events && id in db.bookings && db.bookings[id].order.Some? && !pc.Done?
    requires Harmless(pc, event, id, db.bookings[id].order)
    ensures Harmless(Next(db, pc, c), event, id, db.bookings[id].order)
    ensures var w := PlanOf(db, pc, c).write; (w.Capture? || w.FailPayment?) ==> w.id != id
  {
    if pc.HookStart? || pc.HookFinding? || pc.HookWriting? {
      hide Intended;
      HookPlan(db, pc, c);
    } else {
      OthersAreHarmless(db, pc, c);
    }
  }

  lemma OthersAreHarmless(db: Db, pc: Pc, c: Choice)
    requires !pc.HookStart? && !pc.HookFinding? && !pc.HookWriting? && !pc.Done?
    ensures !PlanOf(db, pc, c).write.Capture? && !PlanOf(db, pc, c).write.FailPayment?
    ensures !Next(db, pc, c).HookStart? && !Next(db, pc, c).HookFinding? && !Next(db, pc, c).HookWriting?
  {
    hide Succeeds;
  }

  lemma OtherLeavesUnpaid(s: State, q: Id, c: Choice, r: Id, event: string, id: Id, payload: PaymentEvent)
    requires Inv(s) && Enabled(s, Advance(q, c)) && q != r && Unpaid(s, r, event, id, payload)
    ensures Unpaid(Step(s, Advance(q, c)), r, event, id, payload)
  {
    hide DbOk, PlanOf, PcOk, Perform, Harmless;
    StepIsMove(s, q, c);
    var pc := s.requests[q];
    var w := PlanOf(s.db, pc, c).write;
    PlanIsSound(s.db, pc, c);
    HarmlessNext(s.db, pc, c, event, id);
    WriteLeavesUnpaid(s.db, w, id);
  }

  lemma ClaimerFinds(db: Db, id: Id, payload: PaymentEvent, c: Choice)
    requires OrdersUnique(db.bookings) && id in db.bookings
    requires payload.PaymentCaptured? && Names(payload, db.bookings[id].order)
    ensures PlanOf(db, HookFinding(payload), c) == Go(HookWriting(id, payload))
  {
    hide Intended;
    HookPlan(db, HookFinding(payload), c);
    assert FindByOrder(db.bookings, payload.order) == Some(id);
  }

  lemma ClaimerWrites(db: Db, id: Id, payload: PaymentEvent, c: Choice)
    requires payload.PaymentCaptured? && payload.payment.Some?
    ensures Next(db, HookWriting(id, payload), c) == Done(HookOk)
    ensures Perform(db, PlanOf(db, HookWriting(id, payload), c).write)
            == if c.fault == NotWritten then db else Perform(db, Capture(id, payload.payment.value))
  {
    hide Intended;
    HookPlan(db, HookWriting(id, payload), c);
  }

  lemma ClaimerAdvances(s: State, c: Choice, r: Id, event: string, id: Id, payload: PaymentEvent)
    requires Inv(s) && Enabled(s, Advance(r, c)) && Unpaid(s, r, event, id, payload)
    ensures var t := Step(s, Advance(r, c));
            if Processes(s, Advance(r, c), r, id) then
              id in t.db.bookings && t.db.bookings[id].status == Confirmed &&
              t.db.bookings[id].payment == payload.payment && r in t.requests && t.requests[r] == Done(HookOk)
            else
              Unpaid(t, r, event, id, payload)
  {
    hide DbOk, PlanOf, PcOk;
    StepIsMove(s, r, c);
    if s.requests[r].HookFinding? {
      OrdersPart(s.db);
      ClaimerFinds(s.db, id, payload, c);
    } else {
      ClaimerWrites(s.db, id, payload, c);
    }
  }

  lemma StepLeavesUnpaid(s: State, a: Action, r: Id, event: string, id: Id, payload: PaymentEvent)
    requires Inv(s) && Enabled(s, a) && Unpaid(s, r, event, id, payload) && BringsNoOther(a, event, payload.order)
    ensures var t := Step(s, a);
            if Processes(s, a, r, id) then
              id in t.db.bookings && t.db.bookings[id].payment == payload.payment &&
              r in t.requests && t.requests[r] == Done(HookOk)
            else
              Unpaid(t, r, event, id, payload)
  {
    match a
    case Start(_, _) =>
    case Tick(elapsed) => TickIs(s, elapsed);
    case Advance(q, c) =>
      if q == r {
        ClaimerAdvances(s, c, r, event, id, payload);
      } else {
        OtherLeavesUnpaid(s, q, c, r, event, id, payload);
      }
  }

  ghost predicate ProcessedIn(s: State, acts: seq<Action>, r: Id, id: Id) {
    exists i :: ProcessedAt(s, acts, i, r, id)
  }

  ghost predicate ProcessedAt(s: State, acts: seq<Action>, i: int, r: Id, id: Id) {
    0 <= i < |acts| && IsRun(s, acts[..i]) && Processes(After(s, acts[..i]), acts[i], r, id)
  }

  lemma ProcessedExtends(s: State, acts: seq<Action>, r: Id, id: Id)
    requires acts != [] && IsRun(s, acts)
    ensures ProcessedIn(s, acts, r, id) <==>
            ProcessedIn(s, acts[..|acts| - 1], r, id) ||
            Processes(After(s, acts[..|acts| - 1]), acts[|acts| - 1], r, id)
  {
    hide Processes;
    var n := |acts| - 1;
    assert forall i :: 0 <= i < n ==> acts[..n][..i] == acts[..i];
    if ProcessedIn(s, acts[..n], r, id) {
      var i :| ProcessedAt(s, acts[..n], i, r, id);
      assert ProcessedAt(s, acts, i, r, id);
    }
    if ProcessedIn(s, acts, r, id) {
      var i :| ProcessedAt(s, acts, i, r, id);
      assert i < n ==> ProcessedAt(s, acts[..n], i, r, id);
    }
    assert Processes(After(s, acts[..n]), acts[n], r, id) ==> ProcessedAt(s, acts, n, r, id);
  }

  lemma PaymentStays(s: State, a: Action, id: Id)
    requires Inv(s) && Enabled(s, a) && id in s.db.bookings && s.db.bookings[id].payment.Some?
    ensures id in Step(s, a).db.bookings && Step(s, a).db.bookings[id].payment == s.db.bookings[id].payment
  {
    hide Inv, Step;
    StepGrows(s, a);
    assert Progressed(s.db.bookings[id], Step(s, a).db.bookings[id]);
  }

  lemma {:induction false} RunLeavesUnpaid(s: State, acts: seq<Action>, r: Id, event: string, id: Id,
                                           payload: PaymentEvent)
    requires Inv(s) && IsRun(s, acts) && Unpaid(s, r, event, id, payload)
    requires AllBringNoOther(acts, event, payload.order)
    ensures var t := After(s, acts);
            if ProcessedIn(s, acts, r, id) then
              id in t.db.bookings && t.db.bookings[id].payment == payload.payment &&
              r in t.requests && t.requests[r] == Done(HookOk)
            else
              Unpaid(t, r, event, id, payload)
  {
    hide Unpaid, Inv, Step;
    if acts == [] {
    } else {
      var front, a := acts[..|acts| - 1], acts[|acts| - 1];
      RunLeavesUnpaid(s, front, r, event, id, payload);
      RunKeepsInv(s, front);
      ProcessedExtends(s, acts, r, id);
      assert payload.payment.Some? by { UnpaidNames(s, r, event, id, payload); }
      if ProcessedIn(s, front, r, id) {
        PaymentStays(After(s, front), a, id);
        DoneStaysOnce(After(s, front), a, r);
      } else {
        StepLeavesUnpaid(After(s, front), a, r, event, id, payload);
      }
    }
  }

  lemma UnpaidNames(s: State, r: Id, event: string, id: Id, payload: PaymentEvent)
    requires Unpaid(s, r, event, id, payload)
    ensures payload.PaymentCaptured? && payload.payment.Some? && event in s.db.events && id in s.db.bookings
    ensures s.db.bookings[id].payment.None? && s.db.bookings[id].status in {PendingPayment, Cancelled}
  {
  }

  lemma DoneStaysOnce(s: State, a: Action, r: Id)
    requires Enabled(s, a) && r in s.requests && s.requests[r].Done?
    ensures r in Step(s, a).requests && Step(s, a).requests[r] == s.requests[r]
  {
  }

  // A redelivery of a claimed event is answered OK and does nothing else.
  lemma {:induction false} RedeliveryIsAnswered(s: State, acts: seq<Action>, i: nat, event: string)
    requires Inv(s) && IsRun(s, acts) && event in s.db.events && i < |acts|
    requires acts[i].Start? && acts[i].entry.HookStart? && acts[i].entry.event == event
    ensures acts[i].request in After(s, acts).requests
    ensures After(s, acts).requests[acts[i].request] in {acts[i].entry, Done(HookOk)}
  {
    var front, a := acts[..|acts| - 1], acts[|acts| - 1];
    if i == |acts| - 1 {
      assert After(s, acts) == Step(After(s, front), a);
    } else {
      RedeliveryIsAnswered(s, front, i, event);
      RunKeepsInv(s, front);
      RedeliveryStep(After(s, front), a, acts[i].request, event);
    }
  }

  lemma RedeliveryStep(s: State, a: Action, q: Id, event: string)
    requires Enabled(s, a) && event in s.db.events && q in s.requests
    requires s.requests[q] == Done(HookOk) || (s.requests[q].HookStart? && s.requests[q].event == event)
    ensures q in Step(s, a).requests && Step(s, a).requests[q] in {s.requests[q], Done(HookOk)}
  {
    match a
    case Start(_, _) =>
    case Tick(elapsed) => TickIs(s, elapsed);
    case Advance(p, c) =>
      StepIsMove(s, p, c);
      if p == q {
        HookPlan(s.db, s.requests[q], c);
      }
  }

  // Whatever else happens, redeliveries, cancellations and other requests included, the payment of a
  // claimed event gets onto the booking if and only if its claimer comes to write while the booking is
  // pending and no fault prevents the update.  If it does not, the booking stays unpaid.
  lemma EventIsActedOnIff(acts: seq<Action>, more: seq<Action>, r: Id, event: string, id: Id, payload: PaymentEvent)
    requires IsRun(Init, acts) && IsRun(After(Init, acts), more) && Unpaid(After(Init, acts), r, event, id, payload)
    requires AllBringNoOther(more, event, payload.order)
    ensures var s, later := After(Init, acts), After(After(Init, acts), more);
            && id in later.db.bookings
            && (later.db.bookings[id].payment == payload.payment <==> ProcessedIn(s, more, r, id))
            && (later.db.bookings[id].payment.None? <==> !ProcessedIn(s, more, r, id))
            && (!ProcessedIn(s, more, r, id) ==> later.db.bookings[id].status in {PendingPayment, Cancelled})
  {
    hide Unpaid, ProcessedIn, Inv;
    var s := After(Init, acts);
    InitOk();
    RunKeepsInv(Init, acts);
    UnpaidNames(s, r, event, id, payload);
    RunLeavesUnpaid(s, more, r, event, id, payload);
    if !ProcessedIn(s, more, r, id) {
      UnpaidNames(After(s, more), r, event, id, payload);
    }
  }

  // So the event is lost if its claimer dies, wherever it stands, or has been answered without writing:
  // redeliveries are answered OK and change nothing.
  lemma UnprocessedEventIsLost(acts: seq<Action>, more: seq<Action>, r: Id, event: string, id: Id,
                               payload: PaymentEvent)
    requires IsRun(Init, acts) && IsRun(After(Init, acts), more) && Unpaid(After(Init, acts), r, event, id, payload)
    requires AllBringNoOther(more, event, payload.order)
    requires var later := After(After(Init, acts), more).requests;
             After(Init, acts).requests[r].Done? || (r in later && !later[r].Done?)
    ensures var later := After(After(Init, acts), more).db.bookings;
            id in later && later[id].payment.None? && later[id].status in {PendingPayment, Cancelled}
    ensures forall i :: 0 <= i < |more| && more[i].Start? && more[i].entry.HookStart? && more[i].entry.event == event ==>
                          var later := After(After(Init, acts), more).requests;
                          more[i].request in later && later[more[i].request] in {more[i].entry, Done(HookOk)}
  {
    var s := After(Init, acts);
    assert Inv(s) && event in s.db.events && id in s.db.bookings by {
      InitOk();
      RunKeepsInv(Init, acts);
      UnpaidNames(s, r, event, id, payload);
    }
    assert !ProcessedIn(s, more, r, id) by {
      if s.requests[r].Done? {
        AnsweredDoesNotProcess(s, more, r, id);
      } else {
        RunLeavesUnpaid(s, more, r, event, id, payload);
      }
    }
    EventIsActedOnIff(acts, more, r, event, id, payload);
    forall i | 0 <= i < |more| && more[i].Start? && more[i].entry.HookStart? && more[i].entry.event == event
      ensures var later := After(s, more).requests;
              more[i].request in later && later[more[i].request] in {more[i].entry, Done(HookOk)}
    {
      RedeliveryIsAnswered(s, more, i, event);
    }
  }

  lemma AnsweredDoesNotProcess(s: State, acts: seq<Action>, r: Id, id: Id)
    requires IsRun(s, acts) && r in s.requests && s.requests[r].Done?
    ensures !ProcessedIn(s, acts, r, id)
  {
    forall i ensures !ProcessedAt(s, acts, i, r, id) {
      if 0 <= i < |acts| && IsRun(s, acts[..i]) {
        DoneStays(s, acts[..i], r);
      }
    }
  }

  // Advancing the claimer of a pending booking's event twice, to its end, confirms the booking with the
  // payment of the event if and only if no fault prevents the update; the answer is OK in any case.
  lemma ClaimerProcessesIff(s: State, r: Id, event: string, id: Id, payload: PaymentEvent, c1: Choice, c2: Choice)
    requires Inv(s) && Unpaid(s, r, event, id, payload) && s.db.bookings[id].status == PendingPayment
    requires s.requests[r].HookFinding? && c1.newId !in s.db.issued && c2.newId !in s.db.issued
    ensures IsRun(s, [Advance(r, c1), Advance(r, c2)])
    ensures var t := After(s, [Advance(r, c1), Advance(r, c2)]);
            && r in t.requests && t.requests[r] == Done(HookOk) && event in t.db.events && id in t.db.bookings
            && (t.db.bookings[id].status == Confirmed && t.db.bookings[id].payment == payload.payment
                <==> c2.fault != NotWritten)
            && (c2.fault == NotWritten ==> t.db.bookings[id] == s.db.bookings[id])
  {
    hide PlanOf, IsRun, Inv, Harmless;
    assert OrdersUnique(s.db.bookings) by { ColumnsAreUnique(s); }
    ClaimerFinds(s.db, id, payload, c1);
    StepIsMove(s, r, c1);
    RunOfOne(s, Advance(r, c1));
    var t := After(s, [Advance(r, c1)]);
    assert t.db == s.db && t.requests[r] == HookWriting(id, payload);
    ClaimerWrites(t.db, id, payload, c2);
    StepIsMove(t, r, c2);
    RunExtends(s, [Advance(r, c1)], Advance(r, c2));
    assert [Advance(r, c1)] + [Advance(r, c2)] == [Advance(r, c1), Advance(r, c2)];
  }

  // The claimer of a payment's first event, at its first step.
  lemma EventIsClaimedFirst(args: CreateArgs) returns (acts: seq<Action>, r: Id)
    requires args.price >= MIN_AMOUNT
    ensures IsRun(Init, acts) && Unpaid(After(Init, acts), r, "paid", BOOKED, PaymentCaptured(Some(0), Some(2)))
    ensures After(Init, acts).requests[r].HookFinding?
    ensures After(Init, acts).db.bookings[BOOKED].status == PendingPayment
  {
    hide Served, PlanOf, Intended, IsRun;
    acts := Pending(args);
    var db := Stored(EmptyDb, args, 0, BOOKED);
    var s := After(Init, acts);
    var payload := PaymentCaptured(Some(0), Some(2));
    var steps := Claiming(db, "paid", payload);
    r := UnusedId(s.requests.Keys);
    var more := PartlyServed(s, r, HookStart("paid", payload), steps, Claimed(db, "paid"), HookFinding(payload));
    RunsConcat(Init, acts, more);
    acts := acts + more;
  }

  // A fault keeps the payment from being written, and the gateway is told that all is well: the booking
  // is pending and unpaid, and stays so whatever is redelivered.
  lemma SwallowedFaultLosesPayment(args: CreateArgs) returns (acts: seq<Action>, r: Id)
    requires args.price >= MIN_AMOUNT
    ensures IsRun(Init, acts) && Unpaid(After(Init, acts), r, "paid", BOOKED, PaymentCaptured(Some(0), Some(2)))
    ensures After(Init, acts).requests[r] == Done(HookOk)
    ensures After(Init, acts).db.bookings[BOOKED].status == PendingPayment
  {
    hide IsRun, Inv, Harmless, Step;
    acts, r := EventIsClaimedFirst(args);
    var s := After(Init, acts);
    var payload := PaymentCaptured(Some(0), Some(2));
    var c := Quiet(s.db);
    var lost := c.(fault := NotWritten);
    assert Inv(s) by {
      InitOk();
      RunKeepsInv(Init, acts);
    }
    ClaimerProcessesIff(s, r, "paid", BOOKED, payload, c, lost);
    var more := [Advance(r, c), Advance(r, lost)];
    RunsConcat(Init, acts, more);
    assert !ProcessedIn(s, more, r, BOOKED) by {
      RunLeavesUnpaid(s, more, r, "paid", BOOKED, payload);
      assert After(s, more).db.bookings[BOOKED].payment.None?;
    }
    RunLeavesUnpaid(s, more, r, "paid", BOOKED, payload);
    acts := acts + more;
  }

  // ------------------------------------------------------------------------------------------
  // Where payments come from
  // ------------------------------------------------------------------------------------------

  ghost predicate Delivered(acts: seq<Action>, event: string, payload: PaymentEvent) {
    exists i :: 0 <= i < |acts| && acts[i].Start? && acts[i].entry == HookStart(event, payload)
  }

  ghost predicate Taken(acts: seq<Action>, db: Db, payload: PaymentEvent) {
    exists event :: event in db.events && Delivered(acts, event, payload)
  }

  // What a webhook request knows of the event it acts on.
  ghost predicate Sourced(acts: seq<Action>, db: Db, pc: Pc) {
    match pc
    case HookStart(event, payload) => Delivered(acts, event, payload)
    case HookFinding(payload) => Taken(acts, db, payload)
    case HookWriting(id, payload) =>
      Taken(acts, db, payload) && !payload.OtherEvent? && id in db.bookings && db.bookings[id].order == payload.order
    case _ => true
  }

  ghost predicate PaymentSourced(acts: seq<Action>, db: Db, b: Booking) {
    b.payment.Some? ==> Taken(acts, db, PaymentCaptured(b.order, b.payment))
  }

  ghost predicate AllSourced(acts: seq<Action>, s: State) {
    && (forall id :: id in s.db.bookings ==> PaymentSourced(acts, s.db, s.db.bookings[id]))
    && forall r :: r in s.requests ==> Sourced(acts, s.db, s.requests[r])
  }

  lemma TakenStays(acts: seq<Action>, a: Action, db: Db, later: Db, payload: PaymentEvent)
    requires db.events <= later.events && Taken(acts, db, payload)
    ensures Taken(acts + [a], later, payload)
  {
    var event :| event in db.events && Delivered(acts, event, payload);
    var i :| 0 <= i < |acts| && acts[i].Start? && acts[i].entry == HookStart(event, payload);
    assert (acts + [a])[i] == acts[i];
    assert Delivered(acts + [a], event, payload);
  }

  lemma DeliveredStays(acts: seq<Action>, a: Action, event: string, payload: PaymentEvent)
    requires Delivered(acts, event, payload)
    ensures Delivered(acts + [a], event, payload)
  {
    var i :| 0 <= i < |acts| && acts[i].Start? && acts[i].entry == HookStart(event, payload);
    assert (acts + [a])[i] == acts[i];
  }

  lemma SourcedStays(acts: seq<Action>, a: Action, db: Db, later: Db, pc: Pc)
    requires Grown(db, later) && Sourced(acts, db, pc)
    ensures Sourced(acts + [a], later, pc)
  {
    match pc
    case HookStart(event, payload) => DeliveredStays(acts, a, event, payload);
    case HookFinding(payload) => TakenStays(acts, a, db, later, payload);
    case HookWriting(id, payload) =>
      TakenStays(acts, a, db, later, payload);
      assert Progressed(db.bookings[id], later.bookings[id]);
    case _ =>
  }

  lemma HookNextIsSourced(acts: seq<Action>, db: Db, pc: Pc, c: Choice)
    requires Sourced(acts, db, pc) && (pc.HookStart? || pc.HookFinding? || pc.HookWriting?)
    ensures Sourced(acts, Perform(db, PlanOf(db, pc, c).write), Next(db, pc, c))
  {
    hide Intended;
    HookPlan(db, pc, c);
    if pc.HookStart? {
      var after := Perform(db, ClaimEvent(pc.event));
      assert pc.event in after.events;
    }
  }

  lemma NextIsSourced(acts: seq<Action>, db: Db, pc: Pc, c: Choice)
    requires Sourced(acts, db, pc) && !pc.Done?
    ensures Sourced(acts, Perform(db, PlanOf(db, pc, c).write), Next(db, pc, c))
  {
    if pc.HookStart? || pc.HookFinding? || pc.HookWriting? {
      HookNextIsSourced(acts, db, pc, c);
    } else {
      OthersAreHarmless(db, pc, c);
    }
  }

  lemma WhoCaptures(db: Db, pc: Pc, c: Choice)
    requires !pc.Done? && PlanOf(db, pc, c).write.Capture?
    ensures pc.HookWriting? && pc.id == PlanOf(db, pc, c).write.id && pc.payload.PaymentCaptured?
    ensures pc.payload.payment == Some(PlanOf(db, pc, c).write.payment)
  {
  }

  lemma WriteKeepsPaymentSourced(acts: seq<Action>, db: Db, w: Write, id: Id)
    requires id in Perform(db, w).bookings && db.events <= Perform(db, w).events
    requires id in db.bookings ==> PaymentSourced(acts, db, db.bookings[id])
    requires w.InsertBooking? ==> w.row.payment == None
    requires w.Capture? && w.id in db.bookings ==>
               Taken(acts, db, PaymentCaptured(db.bookings[w.id].order, Some(w.payment)))
    ensures PaymentSourced(acts, Perform(db, w), Perform(db, w).bookings[id])
  {
    hide Taken;
    var b := Perform(db, w).bookings[id];
    if b.payment.Some? {
      assert Taken(acts, db, PaymentCaptured(b.order, b.payment));
      TakenLater(acts, db, Perform(db, w), PaymentCaptured(b.order, b.payment));
    }
  }

  lemma TakenLater(acts: seq<Action>, db: Db, later: Db, payload: PaymentEvent)
    requires db.events <= later.events && Taken(acts, db, payload)
    ensures Taken(acts, later, payload)
  {
    hide Delivered;
  }

  lemma PaymentSourcedStays(acts: seq<Action>, a: Action, db: Db, b: Booking)
    requires PaymentSourced(acts, db, b)
    ensures PaymentSourced(acts + [a], db, b)
  {
    if b.payment.Some? {
      TakenStays(acts, a, db, db, PaymentCaptured(b.order, b.payment));
    }
  }

  lemma AdvanceKeepsSourced(acts: seq<Action>, s: State, r: Id, c: Choice)
    requires Inv(s) && AllSourced(acts, s) && Enabled(s, Advance(r, c))
    ensures AllSourced(acts + [Advance(r, c)], Step(s, Advance(r, c)))
  {
    hide DbOk, PlanOf, Sourced, PaymentSourced, PcOk, Perform;
    StepIsMove(s, r, c);
    var pc, a := s.requests[r], Advance(r, c);
    var w := PlanOf(s.db, pc, c).write;
    var after := Perform(s.db, w);
    PlanIsSound(s.db, pc, c);
    DbGrows(s.db, w);
    NextIsSourced(acts, s.db, pc, c);
    GrownReflexive(after);
    SourcedStays(acts, a, after, after, Next(s.db, pc, c));
    forall q | q in s.requests && q != r ensures Sourced(acts + [a], after, s.requests[q]) {
      SourcedStays(acts, a, s.db, after, s.requests[q]);
    }
    CapturesAreSourced(acts, s.db, pc, c);
    forall id | id in after.bookings ensures PaymentSourced(acts + [a], after, after.bookings[id]) {
      WriteKeepsPaymentSourced(acts, s.db, w, id);
      PaymentSourcedStays(acts, a, after, after.bookings[id]);
    }
  }

  lemma CapturesAreSourced(acts: seq<Action>, db: Db, pc: Pc, c: Choice)
    requires Sourced(acts, db, pc) && !pc.Done?
    ensures var w := PlanOf(db, pc, c).write;
            w.Capture? && w.id in db.bookings ==>
              Taken(acts, db, PaymentCaptured(db.bookings[w.id].order, Some(w.payment)))
  {
    hide PlanOf;
    if PlanOf(db, pc, c).write.Capture? {
      WhoCaptures(db, pc, c);
    }
  }

  lemma StepKeepsSourced(acts: seq<Action>, s: State, a: Action)
    requires Inv(s) && AllSourced(acts, s) && Enabled(s, a)
    ensures AllSourced(acts + [a], Step(s, a))
  {
    hide Sourced, PaymentSourced, Inv;
    match a
    case Advance(r, c) => AdvanceKeepsSourced(acts, s, r, c);
    case Start(r, entry) =>
      GrownReflexive(s.db);
      EntryIsSourced(acts, r, entry, s.db);
      forall q | q in s.requests ensures Sourced(acts + [a], s.db, s.requests[q]) {
        SourcedStays(acts, a, s.db, s.db, s.requests[q]);
      }
      forall id | id in s.db.bookings ensures PaymentSourced(acts + [a], s.db, s.db.bookings[id]) {
        PaymentSourcedStays(acts, a, s.db, s.db.bookings[id]);
      }
    case Tick(elapsed) => TickKeepsSourced(acts, s, elapsed);
  }

  lemma GrownReflexive(db: Db)
    ensures Grown(db, db)
  {
    forall id | id in db.bookings ensures Progressed(db.bookings[id], db.bookings[id]) {
      ProgressedReflexive(db.bookings[id]);
    }
  }

  lemma EntryIsSourced(acts: seq<Action>, r: Id, entry: Pc, db: Db)
    requires IsEntry(entry)
    ensures Sourced(acts + [Start(r, entry)], db, entry)
  {
    assert (acts + [Start(r, entry)])[|acts|] == Start(r, entry);
  }

  lemma TickKeepsSourced(acts: seq<Action>, s: State, elapsed: nat)
    requires AllSourced(acts, s)
    ensures AllSourced(acts + [Tick(elapsed)], Step(s, Tick(elapsed)))
  {
    TickIs(s, elapsed);
    var later := s.db.(now := s.db.now + elapsed);
    forall id | id in later.bookings ensures PaymentSourced(acts + [Tick(elapsed)], later, later.bookings[id]) {
      assert PaymentSourced(acts, s.db, s.db.bookings[id]);
      if later.bookings[id].payment.Some? {
        TakenStays(acts, Tick(elapsed), s.db, later, PaymentCaptured(later.bookings[id].order, later.bookings[id].payment));
      }
    }
    forall r | r in s.requests ensures Sourced(acts + [Tick(elapsed)], later, s.requests[r]) {
      assert Sourced(acts, s.db, s.requests[r]);
      GrownWithTime(s.db, later);
      SourcedStays(acts, Tick(elapsed), s.db, later, s.requests[r]);
    }
  }

  lemma GrownWithTime(db: Db, later: Db)
    requires later == db.(now := later.now) && db.now <= later.now
    ensures Grown(db, later)
  {
    forall id | id in db.bookings ensures Progressed(db.bookings[id], later.bookings[id]) {
      ProgressedReflexive(db.bookings[id]);
    }
  }

  lemma {:induction false} RunKeepsSourced(acts: seq<Action>)
    requires IsRun(Init, acts)
    ensures AllSourced(acts, After(Init, acts))
  {
    if acts == [] {
    } else {
      var front, a := acts[..|acts| - 1], acts[|acts| - 1];
      RunKeepsSourced(front);
      InitOk();
      RunKeepsInv(Init, front);
      StepKeepsSourced(front, After(Init, front), a);
      assert front + [a] == acts;
    }
  }

  // In every interleaving the payment on a booking is that of a captured event which was delivered for
  // exactly the booking's order, and claimed.
  lemma PaymentsComeFromEvents(acts: seq<Action>, id: Id) returns (event: string)
    requires IsRun(Init, acts)
    requires id in After(Init, acts).db.bookings && After(Init, acts).db.bookings[id].payment.Some?
    ensures var db := After(Init, acts).db;
            && event in db.events
            && Delivered(acts, event, PaymentCaptured(db.bookings[id].order, db.bookings[id].payment))
  {
    RunKeepsSourced(acts);
    var db := After(Init, acts).db;
    assert PaymentSourced(acts, db, db.bookings[id]);
    event :| event in db.events && Delivered(acts, event, PaymentCaptured(db.bookings[id].order, db.bookings[id].payment));
  }
}
