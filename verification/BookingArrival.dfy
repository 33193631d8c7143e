/** Which arrival OTP a request is held to, and accepted with, when requests interleave and faults strike. */
module BookingArrival {
  import opened Common
  import opened BookingTypes
  import opened BookingStore
  import opened BookingProtocol
  import opened BookingInvariant
  import opened BookingSerial
  import opened BookingServing
  import opened BookingScenarios

  lemma StepKeepsExpiry(s: State, a: Action)
    requires Enabled(s, a) && ExpiryOk(s.db)
    ensures ExpiryOk(Step(s, a).db)
  {
    match a
    case Start(_, _) =>
    case Tick(elapsed) => TickIs(s, elapsed);
    case Advance(r, c) =>
      StepIsMove(s, r, c);
      IssuedOtpsExpireInTime(s.db, s.requests[r], c);
      ExpiryStaysOk(s.db, PlanOf(s.db, s.requests[r], c).write);
  }

  lemma {:induction false} RunKeepsExpiry(acts: seq<Action>)
    requires IsRun(Init, acts)
    ensures ExpiryOk(After(Init, acts).db)
  {
    if acts == [] {
    } else {
      RunKeepsExpiry(acts[..|acts| - 1]);
      StepKeepsExpiry(After(Init, acts[..|acts| - 1]), acts[|acts| - 1]);
    }
  }

  // In every reachable state, the arrival OTP a request finds is the newest one issued if and only if no
  // newer one has been used.
  lemma FoundOtpIsNewestIff(acts: seq<Action>, id: Id, k: nat)
    requires IsRun(Init, acts)
    requires LatestActive(After(Init, acts).db.otps, id, Arrival, After(Init, acts).db.now) == Some(k)
    ensures var db := After(Init, acts).db;
            Newest(db, k, id) <==>
            forall j :: k < j < |db.otps| && IsOtp(db.otps[j], id, Arrival) ==> db.otps[j].usedAt.None?
  {
    RunKeepsExpiry(acts);
    var db := After(Init, acts).db;
    if forall j :: k < j < |db.otps| && IsOtp(db.otps[j], id, Arrival) ==> db.otps[j].usedAt.None? {
      forall j | k < j < |db.otps| ensures !IsOtp(db.otps[j], id, Arrival) {
        assert !Active(db.otps[j], id, Arrival, db.now);
        assert db.otps[k].expiresAt <= db.otps[j].expiresAt;
      }
    }
  }

  // ------------------------------------------------------------------------------------------
  // From finding an OTP to accepting it
  // ------------------------------------------------------------------------------------------

  // Request r finds the k-th OTP when it looks for the booking's arrival OTP.
  predicate Finds(s: State, a: Action, r: Id, id: Id, k: nat) {
    && a.Advance? && a.request == r && r in s.requests && s.requests[r].OtpFinding?
    && s.requests[r].kind == Arrival && s.requests[r].id == id
    && LatestActive(s.db.otps, id, Arrival, s.db.now) == Some(k)
  }

  // Request r, held to the k-th OTP, updates the booking and is answered that the OTP is accepted.
  predicate Accepts(s: State, a: Action, r: Id, id: Id, k: nat) {
    && a.Advance? && a.request == r && a.choice.fault == NoFault
    && r in s.requests && s.requests[r].OtpWriting? && s.requests[r].kind == Arrival
    && s.requests[r].id == id && s.requests[r].index == k && Awaiting(s.db, id)
  }

  ghost predicate FindsAt(acts: seq<Action>, i: int, r: Id, id: Id, k: nat) {
    0 <= i < |acts| && IsRun(Init, acts[..i]) && Finds(After(Init, acts[..i]), acts[i], r, id, k)
  }

  ghost predicate AcceptsAt(acts: seq<Action>, j: int, r: Id, id: Id, k: nat) {
    0 <= j < |acts| && IsRun(Init, acts[..j]) && Accepts(After(Init, acts[..j]), acts[j], r, id, k)
  }

  predicate HoldsArrival(pc: Pc) {
    (pc.OtpMarking? || pc.OtpWriting?) && pc.kind == Arrival
  }

  lemma HolderCameFrom(db: Db, pc: Pc, c: Choice)
    requires !pc.Done? && HoldsArrival(Next(db, pc, c))
    ensures var next := Next(db, pc, c);
            || (HoldsArrival(pc) && next.id == pc.id && next.index == pc.index)
            || (pc.OtpFinding? && pc.kind == Arrival && pc.id == next.id &&
                LatestActive(db.otps, pc.id, Arrival, db.now) == Some(next.index))
  {
    hide Intended;
    if pc.OtpIssuing? || pc.OtpStart? || pc.OtpFinding? || pc.OtpMarking? || pc.OtpWriting? {
      OtpPlan(db, pc, c);
    } else {
      OthersHoldNothing(db, pc, c);
    }
  }

  lemma OthersHoldNothing(db: Db, pc: Pc, c: Choice)
    requires !pc.OtpStart? && !pc.OtpFinding? && !pc.OtpMarking? && !pc.OtpWriting? && !pc.OtpIssuing?
    requires !pc.Done?
    ensures !HoldsArrival(Next(db, pc, c))
    ensures Next(db, pc, c).Done? ==> !Next(db, pc, c).reply.OtpAccepted?
  {
    hide Succeeds;
  }

  // A request that holds an arrival OTP has found it.
  lemma {:induction false} HolderFound(acts: seq<Action>, r: Id) returns (i: nat)
    requires IsRun(Init, acts) && r in After(Init, acts).requests && HoldsArrival(After(Init, acts).requests[r])
    ensures var pc := After(Init, acts).requests[r]; FindsAt(acts, i, r, pc.id, pc.index)
  {
    hide PlanOf, Perform, LatestActive;
    var front, a := acts[..|acts| - 1], acts[|acts| - 1];
    var s := After(Init, front);
    if a.Advance? {
      StepIsMove(s, a.request, a.choice);
    }
    if a.Advance? && a.request == r {
      HolderCameFrom(s.db, s.requests[r], a.choice);
    }
    if a.Advance? && a.request == r && s.requests[r].OtpFinding? {
      i := |acts| - 1;
    } else {
      i := HolderFound(front, r);
      assert front[..i] == acts[..i];
    }
  }

  lemma AcceptedBy(db: Db, pc: Pc, c: Choice, id: Id, k: nat, digest: string)
    requires !pc.Done? && Next(db, pc, c) == Done(OtpAccepted(Arrival, id, k, digest))
    ensures pc.OtpWriting? && pc.kind == Arrival && pc.id == id && pc.index == k
    ensures c.fault == NoFault && Awaiting(db, id)
  {
    hide Intended;
    if pc.OtpIssuing? || pc.OtpStart? || pc.OtpFinding? || pc.OtpMarking? || pc.OtpWriting? {
      OtpPlan(db, pc, c);
    } else {
      OthersHoldNothing(db, pc, c);
    }
  }

  // An accepted arrival OTP was found, and then accepted.
  lemma {:induction false} AcceptedWasFound(acts: seq<Action>, r: Id, id: Id, k: nat, digest: string)
    returns (i: nat, j: nat)
    requires IsRun(Init, acts) && r in After(Init, acts).requests
    requires After(Init, acts).requests[r] == Done(OtpAccepted(Arrival, id, k, digest))
    ensures i < j && FindsAt(acts, i, r, id, k) && AcceptsAt(acts, j, r, id, k)
  {
    hide PlanOf, Perform, LatestActive;
    var front, a := acts[..|acts| - 1], acts[|acts| - 1];
    var s := After(Init, front);
    if a.Advance? {
      StepIsMove(s, a.request, a.choice);
    }
    if a.Advance? && a.request == r {
      AcceptedBy(s.db, s.requests[r], a.choice, id, k, digest);
      i := HolderFound(front, r);
      j := |acts| - 1;
      assert front[..i] == acts[..i];
    } else {
      i, j := AcceptedWasFound(front, r, id, k, digest);
      assert front[..i] == acts[..i] && front[..j] == acts[..j];
    }
  }

  // Whatever requests race and whatever faults strike: the arrival OTP a request is accepted with is the
  // newest one issued if and only if no newer one had been used when the request found it, and none was
  // issued between that and the update of the booking.
  lemma AcceptedOtpIsNewestIff(acts: seq<Action>, i: nat, j: nat, r: Id, id: Id, k: nat)
    requires IsRun(Init, acts) && i < j && FindsAt(acts, i, r, id, k) && AcceptsAt(acts, j, r, id, k)
    ensures var s := After(Init, acts[..j]);
            && Enabled(s, acts[j])
            && Next(s.db, s.requests[r], acts[j].choice) == Done(OtpAccepted(Arrival, id, k, s.requests[r].digest))
    ensures var found, accepted := After(Init, acts[..i]).db.otps, After(Init, acts[..j]).db.otps;
            && |found| <= |accepted|
            && (Newest(After(Init, acts[..j]).db, k, id) <==>
                && (forall n :: k < n < |found| && IsOtp(found[n], id, Arrival) ==> found[n].usedAt.None?)
                && (forall n :: |found| <= n < |accepted| ==> !IsOtp(accepted[n], id, Arrival)))
  {
    hide IsRun, Inv, LatestActive, IsOtp;
    var before, after := After(Init, acts[..i]).db, After(Init, acts[..j]).db;
    FoundOtpIsNewestIff(acts[..i], id, k);
    assert Grown(before, after) by {
      InitOk();
      RunKeepsInv(Init, acts[..i]);
      RunSuffix(Init, acts[..j], i);
      assert acts[..j][..i] == acts[..i];
      RunKeepsInv(After(Init, acts[..i]), acts[..j][i..]);
    }
    NewestLater(before, after, k, id);
    RunPrefix(Init, acts, j);
    AcceptingAnswers(After(Init, acts[..j]), acts[j], r, id, k);
  }

  lemma AcceptingAnswers(s: State, a: Action, r: Id, id: Id, k: nat)
    requires Enabled(s, a) && Accepts(s, a, r, id, k)
    ensures Next(s.db, s.requests[r], a.choice) == Done(OtpAccepted(Arrival, id, k, s.requests[r].digest))
  {
    hide Intended;
    OtpPlan(s.db, s.requests[r], a.choice);
  }

  lemma NewestLater(db: Db, later: Db, k: nat, id: Id)
    requires Grown(db, later) && k < |db.otps|
    ensures Newest(later, k, id) <==>
            Newest(db, k, id) && forall n :: |db.otps| <= n < |later.otps| ==> !IsOtp(later.otps[n], id, Arrival)
  {
    assert forall n :: 0 <= n < |db.otps| ==> (UsedStays(db.otps[n], later.otps[n]));
    assert forall n :: 0 <= n < |db.otps| ==> (IsOtp(later.otps[n], id, Arrival) <==> IsOtp(db.otps[n], id, Arrival));
  }

  // The service person is replaced, the new OTP is redeemed but a fault keeps the arrival from being
  // recorded: now the old OTP is accepted.
  lemma OlderOtpCanBeAccepted(args: CreateArgs) returns (acts: seq<Action>, r: Id)
    requires args.price >= MIN_AMOUNT
    ensures IsRun(Init, acts) && r in After(Init, acts).requests
    ensures After(Init, acts).requests[r] == Done(OtpAccepted(Arrival, BOOKED, 0, "arrival"))
    ensures !Newest(After(Init, acts).db, 0, BOOKED)
  {
    hide Served, IsRun, PlanOf, Intended, Calm, Perform;
    acts := ReassignedAndLost(args);
    var s := After(Init, acts);
    OldOtpIsActive(args);
    var steps := Confirming(LostDb(args), BOOKED, 0);
    r := UnusedId(s.requests.Keys);
    var after := Perform(Perform(LostDb(args), MarkUsed(0)), ConfirmArrival(BOOKED));
    var entry := OtpStart(Arrival, BOOKED, args.provider, "arrival");
    HandledRequestIsARun(s, r, entry, steps, after, OtpAccepted(Arrival, BOOKED, 0, "arrival"));
    RunsConcat(Init, acts, Serving(r, entry, steps));
    acts := acts + Serving(r, entry, steps);
    StaysOlder(args);
  }

  function ReassignedDb(args: CreateArgs): Db {
    AssignedDb(args).(bookings := map[BOOKED := PaidRow(args).(person := Some(4))],
                      otps := [Otp(BOOKED, Arrival, "arrival", OTP_TTL, None),
                               Otp(BOOKED, Arrival, "second", OTP_TTL, None)])
  }

  function LostDb(args: CreateArgs): Db {
    ReassignedDb(args).(otps := [Otp(BOOKED, Arrival, "arrival", OTP_TTL, None),
                                 Otp(BOOKED, Arrival, "second", OTP_TTL, Some(0))])
  }

  lemma OldOtpIsActive(args: CreateArgs)
    ensures BOOKED in LostDb(args).bookings && LostDb(args).bookings[BOOKED].status == Confirmed
    ensures LatestActive(LostDb(args).otps, BOOKED, Arrival, 0) == Some(0)
  {
    assert LatestActive(LostDb(args).otps[..1], BOOKED, Arrival, 0) == Some(0);
  }

  lemma StaysOlder(args: CreateArgs)
    ensures !Newest(Perform(Perform(LostDb(args), MarkUsed(0)), ConfirmArrival(BOOKED)), 0, BOOKED)
  {
    var after := Perform(Perform(LostDb(args), MarkUsed(0)), ConfirmArrival(BOOKED));
    assert IsOtp(after.otps[1], BOOKED, Arrival);
  }

  lemma ReassignedAndLost(args: CreateArgs) returns (acts: seq<Action>)
    requires args.price >= MIN_AMOUNT
    ensures IsRun(Init, acts) && After(Init, acts).db == LostDb(args)
  {
    hide Served, IsRun, PlanOf, Intended, IsSerial;
    acts := Assigned(args);
    var steps := Assigning(AssignedDb(args), BOOKED, 4, "second");
    assert Issued(AssignedDb(args), AssignPerson(BOOKED, 4), Arrival, BOOKED, "second") == ReassignedDb(args);
    var q: Id;
    acts, q := Handled(acts, AssignStart(BOOKED, args.provider, 4), steps, ReassignedDb(args), AssignOk(BOOKED));
    var s, db := After(Init, acts), ReassignedDb(args);
    assert LatestActive(db.otps, BOOKED, Arrival, 0) == Some(1);
    steps := Redeeming(db, Arrival, BOOKED, 1);
    var entry := OtpStart(Arrival, BOOKED, args.provider, "second");
    assert Perform(db, MarkUsed(1)) == LostDb(args);
    var c := Quiet(LostDb(args));
    c := c.(fault := NotWritten);
    ConfirmServes(db, entry, steps, LostDb(args), BOOKED, 1, "second", c);
    q := UnusedId(s.requests.Keys);
    HandledRequestIsARun(s, q, entry, steps + [c], LostDb(args), BadRequest);
    RunsConcat(Init, acts, Serving(q, entry, steps + [c]));
    acts := acts + Serving(q, entry, steps + [c]);
  }

  // Without any fault: the service person is replaced, and a new OTP issued, while the old one is being
  // redeemed; the old one is accepted.
  lemma OtpIssuedMeanwhile(args: CreateArgs) returns (acts: seq<Action>, r: Id)
    requires args.price >= MIN_AMOUNT
    ensures FaultlessRun(acts) && r in After(Init, acts).requests
    ensures After(Init, acts).requests[r] == Done(OtpAccepted(Arrival, BOOKED, 0, "arrival"))
    ensures !Newest(After(Init, acts).db, 0, BOOKED)
  {
    hide Served, IsRun, PlanOf, Faultless, Calm, Perform;
    acts := Assigned(args);
    assert FaultlessRun(acts) by { CalmIsFaultless(acts); }
    ArrivalOtpIsActive(args);
    var steps := Redeeming(AssignedDb(args), Arrival, BOOKED, 0);
    r := UnusedId(After(Init, acts).requests.Keys);
    RedeemedDbIs(args);
    acts := Begun(acts, r, OtpStart(Arrival, BOOKED, args.provider, "arrival"), steps, RedeemedDb(args),
                  OtpWriting(Arrival, BOOKED, 0, "arrival"));
    steps := Assigning(RedeemedDb(args), BOOKED, 4, "second");
    var q := UnusedId(After(Init, acts).requests.Keys);
    acts := Begun(acts, q, AssignStart(BOOKED, args.provider, 4), steps, ReissuedDb(args), Done(AssignOk(BOOKED)));
    var c := Quiet(ReissuedDb(args));
    ConfirmationGoesThrough(ReissuedDb(args), BOOKED, 0, "arrival", c);
    acts := GoneOn(acts, r, c);
    assert IsOtp(ReissuedDb(args).otps[1], BOOKED, Arrival);
  }

  function RedeemedDb(args: CreateArgs): Db {
    AssignedDb(args).(otps := [Otp(BOOKED, Arrival, "arrival", OTP_TTL, Some(0))])
  }

  function ReissuedDb(args: CreateArgs): Db {
    RedeemedDb(args).(bookings := map[BOOKED := PaidRow(args).(person := Some(4))],
                      otps := [Otp(BOOKED, Arrival, "arrival", OTP_TTL, Some(0)),
                               Otp(BOOKED, Arrival, "second", OTP_TTL, None)])
  }

  lemma RedeemedDbIs(args: CreateArgs)
    ensures Perform(AssignedDb(args), MarkUsed(0)) == RedeemedDb(args)
    ensures Issued(RedeemedDb(args), AssignPerson(BOOKED, 4), Arrival, BOOKED, "second") == ReissuedDb(args)
  {
  }

  lemma ConfirmationGoesThrough(db: Db, id: Id, k: nat, digest: string, c: Choice)
    requires Awaiting(db, id) && c.fault == NoFault
    ensures var to := Move(Spot(db, OtpWriting(Arrival, id, k, digest)), c);
            to.db.otps == db.otps && to.pc == Done(OtpAccepted(Arrival, id, k, digest))
  {
    hide Intended;
    OtpPlan(db, OtpWriting(Arrival, id, k, digest), c);
  }
}
