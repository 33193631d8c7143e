/**
 Whether a booking that awaits verification can still be completed: exactly as long as its completion
 OTP can be found or a request is already past finding it.
 */
module BookingCompletion {
  import opened Common
  import opened BookingTypes
  import opened BookingStore
  import opened BookingProtocol
  import opened BookingInvariant
  import opened BookingSafety
  import opened BookingSerial
  import opened BookingServing
  import opened BookingScenarios

  predicate Verifying(db: Db, id: Id) {
    id in db.bookings && db.bookings[id].status == PendingCompletionVerification
  }

  // The request will issue the OTP, or holds one that it can still redeem.
  predicate Advances(db: Db, pc: Pc, id: Id) {
    match pc
    case OtpIssuing(Completion, booking) => booking == id
    case OtpMarking(Completion, booking, k, digest) =>
      booking == id && k < |db.otps| && db.otps[k].expiresAt >= db.now && db.otps[k].digest == digest
    case OtpWriting(Completion, booking, _, _) => booking == id
    case _ => false
  }

  predicate HasActive(db: Db, id: Id) {
    LatestActive(db.otps, id, Completion, db.now).Some?
  }

  ghost predicate Completable(s: State, id: Id) {
    Verifying(s.db, id) && (HasActive(s.db, id) || exists r :: r in s.requests && Advances(s.db, s.requests[r], id))
  }

  ghost predicate CanComplete(s: State, id: Id) {
    exists acts :: CompletesBy(s, acts, id)
  }

  ghost predicate CompletesBy(s: State, acts: seq<Action>, id: Id) {
    IsRun(s, acts) && id in After(s, acts).db.bookings && After(s, acts).db.bookings[id].status == Completed
  }

  // ------------------------------------------------------------------------------------------
  // Once no longer completable, never again
  // ------------------------------------------------------------------------------------------

  ghost predicate Abandoned(s: State, id: Id) {
    Verifying(s.db, id) && !Completable(s, id)
  }

  lemma WritesOfOthers(db: Db, pc: Pc, c: Choice, id: Id)
    requires !Advances(db, pc, id)
    ensures PlanOf(db, pc, c).write != Complete(id)
    ensures PlanOf(db, pc, c).write.InsertOtp? ==> !IsOtp(PlanOf(db, pc, c).write.otp, id, Completion)
  {
  }

  lemma StaysVerifying(db: Db, w: Write, id: Id)
    requires Verifying(db, id) && w != Complete(id)
    requires w.InsertBooking? ==> w.id !in db.bookings
    ensures Verifying(Perform(db, w), id)
  {
  }

  lemma StaysInactive(db: Db, w: Write, id: Id)
    requires !HasActive(db, id) && (w.InsertOtp? ==> !IsOtp(w.otp, id, Completion))
    ensures !HasActive(Perform(db, w), id)
  {
    var after := Perform(db, w);
    forall k | 0 <= k < |after.otps| ensures !Active(after.otps[k], id, Completion, after.now) {
      assert k < |db.otps| ==> !Active(db.otps[k], id, Completion, db.now);
    }
  }

  lemma OtpNextDoesNotAdvance(db: Db, pc: Pc, c: Choice, id: Id)
    requires !HasActive(db, id) && !Advances(db, pc, id)
    requires pc.OtpIssuing? || pc.OtpStart? || pc.OtpFinding? || pc.OtpMarking? || pc.OtpWriting?
    ensures !Advances(Perform(db, PlanOf(db, pc, c).write), Next(db, pc, c), id)
  {
    hide Intended;
    OtpPlan(db, pc, c);
  }

  lemma MarkNextDoesNotAdvance(db: Db, pc: Pc, c: Choice, id: Id)
    requires Verifying(db, id) && (pc.MarkStart? || pc.MarkWriting?)
    ensures !Advances(Perform(db, PlanOf(db, pc, c).write), Next(db, pc, c), id)
  {
    hide Intended;
    MarkPlan(db, pc, c);
  }

  lemma OtherNextDoesNotAdvance(db: Db, pc: Pc, c: Choice, id: Id)
    requires !pc.MarkStart? && !pc.MarkWriting? && !pc.Done?
    requires !pc.OtpIssuing? && !pc.OtpStart? && !pc.OtpFinding? && !pc.OtpMarking? && !pc.OtpWriting?
    ensures !Advances(Perform(db, PlanOf(db, pc, c).write), Next(db, pc, c), id)
  {
    hide Perform, Succeeds;
  }

  // A request that finds nothing to redeem gets no further, nor does one that may not issue an OTP.
  lemma NextDoesNotAdvance(db: Db, pc: Pc, c: Choice, id: Id)
    requires Verifying(db, id) && !HasActive(db, id) && !Advances(db, pc, id) && !pc.Done?
    ensures !Advances(Perform(db, PlanOf(db, pc, c).write), Next(db, pc, c), id)
  {
    hide PlanOf, Advances;
    if pc.OtpIssuing? || pc.OtpStart? || pc.OtpFinding? || pc.OtpMarking? || pc.OtpWriting? {
      OtpNextDoesNotAdvance(db, pc, c, id);
    } else if pc.MarkStart? || pc.MarkWriting? {
      MarkNextDoesNotAdvance(db, pc, c, id);
    } else {
      OtherNextDoesNotAdvance(db, pc, c, id);
    }
  }

  lemma OthersDoNotAdvance(db: Db, w: Write, other: Pc, id: Id)
    requires DbOk(db) && WriteOk(db, w) && PcOk(db, other) && !Advances(db, other, id)
    ensures !Advances(Perform(db, w), other, id)
  {
    hide OtpsOk, EvidenceOk, UniqueColumns, ReviewsOk, RefundsOk;
    DbGrows(db, w);
    if other.OtpMarking? {
      assert UsedStays(db.otps[other.index], Perform(db, w).otps[other.index]);
    }
  }

  lemma StepKeepsAbandoned(s: State, a: Action, id: Id)
    requires Inv(s) && Enabled(s, a) && Abandoned(s, id)
    ensures Abandoned(Step(s, a), id)
  {
    match a
    case Start(r, entry) => StartKeepsAbandoned(s, r, entry, id);
    case Tick(elapsed) => TickKeepsAbandoned(s, elapsed, id);
    case Advance(r, c) => AdvanceKeepsAbandoned(s, r, c, id);
  }

  lemma StartKeepsAbandoned(s: State, r: Id, entry: Pc, id: Id)
    requires IsEntry(entry) && Abandoned(s, id)
    ensures Abandoned(s.(requests := s.requests[r := entry]), id)
  {
    var t := s.(requests := s.requests[r := entry]);
    assert forall q :: q in t.requests ==> !Advances(t.db, t.requests[q], id);
  }

  lemma TickKeepsAbandoned(s: State, elapsed: nat, id: Id)
    requires Abandoned(s, id)
    ensures Abandoned(Step(s, Tick(elapsed)), id)
  {
    TickIs(s, elapsed);
    var later := s.db.(now := s.db.now + elapsed);
    forall k | 0 <= k < |later.otps| ensures !Active(later.otps[k], id, Completion, later.now) {
      assert !Active(s.db.otps[k], id, Completion, s.db.now);
    }
    forall q | q in s.requests ensures !Advances(later, s.requests[q], id) {
      assert !Advances(s.db, s.requests[q], id);
    }
  }

  lemma AdvanceKeepsAbandoned(s: State, r: Id, c: Choice, id: Id)
    requires Inv(s) && Enabled(s, Advance(r, c)) && Abandoned(s, id)
    ensures Abandoned(Step(s, Advance(r, c)), id)
  {
    hide DbOk, PcOk, Advances, Verifying, HasActive, Perform;
    var pc := s.requests[r];
    var w := PlanOf(s.db, pc, c).write;
    StepIsMove(s, r, c);
    PlanIsSound(s.db, pc, c);
    WritesOfOthers(s.db, pc, c, id);
    StaysVerifying(s.db, w, id);
    StaysInactive(s.db, w, id);
    NextDoesNotAdvance(s.db, pc, c, id);
    forall q | q in s.requests && q != r ensures !Advances(Perform(s.db, w), s.requests[q], id) {
      OthersDoNotAdvance(s.db, w, s.requests[q], id);
    }
  }

  lemma {:induction false} AbandonedForever(s: State, acts: seq<Action>, id: Id)
    requires Inv(s) && IsRun(s, acts) && Abandoned(s, id)
    ensures Abandoned(After(s, acts), id)
  {
    if acts == [] {
    } else {
      var front := acts[..|acts| - 1];
      AbandonedForever(s, front, id);
      RunKeepsInv(s, front);
      StepKeepsAbandoned(After(s, front), acts[|acts| - 1], id);
    }
  }

  // ------------------------------------------------------------------------------------------
  // As long as it is completable, some continuation completes it
  // ------------------------------------------------------------------------------------------

  lemma Continues(s: State, a: Action, more: seq<Action>, id: Id)
    requires Enabled(s, a) && CompletesBy(Step(s, a), more, id)
    ensures CompletesBy(s, [a] + more, id)
  {
    RunOfOne(s, a);
    RunsConcat(s, [a], more);
  }

  // The user redeems the active OTP.
  lemma ActiveOtpCompletes(s: State, id: Id) returns (acts: seq<Action>)
    requires Verifying(s.db, id) && HasActive(s.db, id)
    ensures CompletesBy(s, acts, id)
  {
    hide Served, PlanOf, Intended, IsRun;
    var k := LatestActive(s.db.otps, id, Completion, s.db.now).value;
    var entry := OtpStart(Completion, id, s.db.bookings[id].user, s.db.otps[k].digest);
    var steps := Completing(s.db, id, k);
    var after := Perform(Perform(s.db, MarkUsed(k)), Complete(id));
    var r := UnusedId(s.requests.Keys);
    HandledRequestIsARun(s, r, entry, steps, after, OtpAccepted(Completion, id, k, s.db.otps[k].digest));
    acts := Serving(r, entry, steps);
    assert After(s, acts).db == after;
    assert id in after.bookings && after.bookings[id].status == Completed;
  }

  lemma WriterCompletes(s: State, r: Id, id: Id) returns (acts: seq<Action>)
    requires Verifying(s.db, id) && r in s.requests
    requires s.requests[r].OtpWriting? && s.requests[r].kind == Completion && s.requests[r].id == id
    ensures CompletesBy(s, acts, id)
  {
    var c := Quiet(s.db);
    StepIsMove(s, r, c);
    OtpPlan(s.db, s.requests[r], c);
    RunOfOne(s, Advance(r, c));
    acts := [Advance(r, c)];
  }

  lemma MarkerCompletes(s: State, r: Id, id: Id) returns (acts: seq<Action>)
    requires Verifying(s.db, id) && r in s.requests && s.requests[r].OtpMarking? && Advances(s.db, s.requests[r], id)
    ensures CompletesBy(s, acts, id)
  {
    var c := Quiet(s.db);
    var pc := s.requests[r];
    var t := Step(s, Advance(r, c));
    assert t == State(Perform(s.db, MarkUsed(pc.index)),
                      s.requests[r := OtpWriting(Completion, id, pc.index, pc.digest)]) by {
      StepIsMove(s, r, c);
      OtpPlan(s.db, pc, c);
    }
    acts := WriterCompletes(t, r, id);
    Continues(s, Advance(r, c), acts, id);
    acts := [Advance(r, c)] + acts;
  }

  lemma IssuerCompletes(s: State, r: Id, id: Id) returns (acts: seq<Action>)
    requires Verifying(s.db, id) && r in s.requests
    requires s.requests[r].OtpIssuing? && s.requests[r].kind == Completion && s.requests[r].id == id
    ensures CompletesBy(s, acts, id)
  {
    var c := Quiet(s.db);
    var t := Step(s, Advance(r, c));
    assert t.db == Perform(s.db, InsertOtp(NewOtp(Completion, id, c.digest, s.db.now))) by {
      StepIsMove(s, r, c);
      OtpPlan(s.db, s.requests[r], c);
    }
    assert Active(t.db.otps[|s.db.otps|], id, Completion, t.db.now);
    acts := ActiveOtpCompletes(t, id);
    Continues(s, Advance(r, c), acts, id);
    acts := [Advance(r, c)] + acts;
  }

  lemma CompletableCompletes(s: State, id: Id) returns (acts: seq<Action>)
    requires Completable(s, id)
    ensures CompletesBy(s, acts, id)
  {
    hide CompletesBy;
    if HasActive(s.db, id) {
      acts := ActiveOtpCompletes(s, id);
    } else {
      var r :| r in s.requests && Advances(s.db, s.requests[r], id);
      if s.requests[r].OtpIssuing? {
        acts := IssuerCompletes(s, r, id);
      } else if s.requests[r].OtpMarking? {
        acts := MarkerCompletes(s, r, id);
      } else {
        acts := WriterCompletes(s, r, id);
      }
    }
  }

  // In every reachable state, a booking that awaits verification can be completed by some continuation
  // if and only if its completion OTP is active, or a request is about to issue it or already holds it.
  // Otherwise its status never changes again.
  lemma CompletionIsPossibleIff(acts: seq<Action>, id: Id)
    requires IsRun(Init, acts) && Verifying(After(Init, acts).db, id)
    ensures CanComplete(After(Init, acts), id) <==> Completable(After(Init, acts), id)
    ensures !Completable(After(Init, acts), id) ==>
              forall more :: IsRun(After(Init, acts), more) ==> Verifying(After(After(Init, acts), more).db, id)
  {
    var s := After(Init, acts);
    InitOk();
    RunKeepsInv(Init, acts);
    if Completable(s, id) {
      var more := CompletableCompletes(s, id);
    } else {
      forall more | IsRun(s, more) ensures Verifying(After(s, more).db, id) && !CompletesBy(s, more, id) {
        AbandonedForever(s, more, id);
      }
    }
  }

  // ------------------------------------------------------------------------------------------
  // When every request has been answered
  // ------------------------------------------------------------------------------------------

  ghost predicate FaultFree(acts: seq<Action>) {
    forall i :: 0 <= i < |acts| ==> Faultless(acts[i])
  }

  ghost predicate Issuing(s: State, id: Id) {
    exists r :: r in s.requests && s.requests[r] == OtpIssuing(Completion, id)
  }

  predicate Writes(pc: Pc, id: Id) {
    pc.OtpWriting? && pc.kind == Completion && pc.id == id
  }

  ghost predicate Writing(s: State, id: Id) {
    exists r :: r in s.requests && Writes(s.requests[r], id)
  }

  // Without faults, a booking that awaits verification has its OTP or is about to get it, and the OTP
  // is unused unless a request is about to complete the booking.
  ghost predicate OtpAccounted(s: State, id: Id) {
    Verifying(s.db, id) ==>
      && (HasOtp(s.db, id, Completion) || Issuing(s, id))
      && (UsedOtp(s.db, id, Completion) ==> Writing(s, id))
  }

  lemma BecomesVerifying(db: Db, w: Write, id: Id)
    requires WriteOk(db, w) && !Verifying(db, id) && Verifying(Perform(db, w), id)
    ensures w == RequestCompletion(id) && id in db.bookings && db.bookings[id].status == ArrivalConfirmed
  {
  }

  lemma WhoRequestsCompletion(db: Db, pc: Pc, c: Choice, id: Id)
    requires PlanOf(db, pc, c).write == RequestCompletion(id) && c.fault == NoFault && !pc.Done?
    requires id in db.bookings && db.bookings[id].status == ArrivalConfirmed
    ensures Next(db, pc, c) == OtpIssuing(Completion, id)
  {
  }

  lemma IssuerIssues(db: Db, c: Choice, id: Id)
    ensures HasOtp(Perform(db, PlanOf(db, OtpIssuing(Completion, id), c).write), id, Completion)
  {
    OtpPlan(db, OtpIssuing(Completion, id), c);
    var after := Perform(db, InsertOtp(NewOtp(Completion, id, c.digest, db.now)));
    assert IsOtp(after.otps[|db.otps|], id, Completion);
  }

  lemma WriterWrites(db: Db, pc: Pc, c: Choice, id: Id)
    requires Verifying(db, id) && Writes(pc, id) && c.fault == NoFault
    ensures !Verifying(Perform(db, PlanOf(db, pc, c).write), id)
  {
    OtpPlan(db, pc, c);
  }

  lemma HasOtpStays(db: Db, later: Db, id: Id, kind: OtpKind)
    requires Grown(db, later) && HasOtp(db, id, kind)
    ensures HasOtp(later, id, kind)
  {
    var k :| 0 <= k < |db.otps| && IsOtp(db.otps[k], id, kind);
    assert UsedStays(db.otps[k], later.otps[k]);
    assert IsOtp(later.otps[k], id, kind);
  }

  // An OTP becomes used only in the hands of a request that is then about to write.
  lemma BecomesUsed(db: Db, pc: Pc, c: Choice, id: Id)
    requires PcOk(db, pc) && !pc.Done?
    requires !UsedOtp(db, id, Completion) && UsedOtp(Perform(db, PlanOf(db, pc, c).write), id, Completion)
    ensures Writes(Next(db, pc, c), id)
  {
    hide Intended;
    IssuedOtpsExpireInTime(db, pc, c);
    var w := PlanOf(db, pc, c).write;
    var after := Perform(db, w);
    var k :| 0 <= k < |after.otps| && IsOtp(after.otps[k], id, Completion) && after.otps[k].usedAt.Some?;
    assert k < |db.otps| && IsOtp(db.otps[k], id, Completion) && db.otps[k].usedAt.None?;
    assert w == MarkUsed(k);
  }

  lemma NewlyVerifyingIsAccounted(s: State, r: Id, c: Choice, id: Id, t: State)
    requires Inv(s) && Enabled(s, Advance(r, c)) && c.fault == NoFault && t == Step(s, Advance(r, c))
    requires !Verifying(s.db, id) && Verifying(t.db, id)
    ensures OtpAccounted(t, id)
  {
    hide DbOk, PlanOf;
    var pc := s.requests[r];
    assert t == State(Perform(s.db, PlanOf(s.db, pc, c).write), s.requests[r := Next(s.db, pc, c)]) by {
      StepIsMove(s, r, c);
    }
    PlanIsSound(s.db, pc, c);
    BecomesVerifying(s.db, PlanOf(s.db, pc, c).write, id);
    WhoRequestsCompletion(s.db, pc, c, id);
    assert t.requests[r] == OtpIssuing(Completion, id);
    assert OtpsOk(s.db) by { OtpsPart(s.db); }
    NoCompletionOtpYet(s.db, id);
    assert t.db.otps == s.db.otps;
    forall k | 0 <= k < |t.db.otps| ensures !IsOtp(t.db.otps[k], id, Completion) {
      assert !IsOtp(s.db.otps[k], id, Completion);
    }
  }

  lemma OtpsPart(db: Db)
    requires DbOk(db)
    ensures OtpsOk(db)
  {
  }

  lemma OtpStaysAccounted(s: State, r: Id, pc: Pc, c: Choice, id: Id, t: State)
    requires r in s.requests && s.requests[r] == pc
    requires t == State(Perform(s.db, PlanOf(s.db, pc, c).write), s.requests[r := Next(s.db, pc, c)])
    requires Grown(s.db, t.db) && (HasOtp(s.db, id, Completion) || Issuing(s, id))
    ensures HasOtp(t.db, id, Completion) || Issuing(t, id)
  {
    hide PlanOf, HasOtp, Perform, Grown;
    if HasOtp(s.db, id, Completion) {
      HasOtpStays(s.db, t.db, id, Completion);
    } else {
      var q :| q in s.requests && s.requests[q] == OtpIssuing(Completion, id);
      if q == r {
        IssuerIssues(s.db, c, id);
      } else {
        assert t.requests[q] == OtpIssuing(Completion, id);
      }
    }
  }

  lemma UseStaysAccounted(s: State, r: Id, pc: Pc, c: Choice, id: Id, t: State)
    requires r in s.requests && s.requests[r] == pc && PcOk(s.db, pc) && !pc.Done? && c.fault == NoFault
    requires t == State(Perform(s.db, PlanOf(s.db, pc, c).write), s.requests[r := Next(s.db, pc, c)])
    requires Verifying(s.db, id) && Verifying(t.db, id) && UsedOtp(t.db, id, Completion)
    requires UsedOtp(s.db, id, Completion) ==> Writing(s, id)
    ensures Writing(t, id)
  {
    hide PlanOf, UsedOtp, Perform, Verifying;
    if UsedOtp(s.db, id, Completion) {
      var q :| q in s.requests && Writes(s.requests[q], id);
      if q == r {
        WriterWrites(s.db, pc, c, id);
      }
      assert Writes(t.requests[q], id);
    } else {
      BecomesUsed(s.db, pc, c, id);
      assert Writes(t.requests[r], id);
    }
  }

  lemma StillVerifyingIsAccounted(s: State, r: Id, c: Choice, id: Id, t: State)
    requires Inv(s) && Enabled(s, Advance(r, c)) && c.fault == NoFault && t == Step(s, Advance(r, c))
    requires OtpAccounted(s, id) && Verifying(s.db, id) && Verifying(t.db, id)
    ensures OtpAccounted(t, id)
  {
    hide DbOk, PlanOf, HasOtp, UsedOtp, Perform, Issuing, Writing, Step;
    var pc := s.requests[r];
    StepIsMove(s, r, c);
    PlanIsSound(s.db, pc, c);
    DbGrows(s.db, PlanOf(s.db, pc, c).write);
    OtpStaysAccounted(s, r, pc, c, id, t);
    if UsedOtp(t.db, id, Completion) {
      UseStaysAccounted(s, r, pc, c, id, t);
    }
  }

  lemma StartKeepsAccounted(s: State, r: Id, entry: Pc, id: Id)
    requires OtpAccounted(s, id) && r !in s.requests
    ensures OtpAccounted(s.(requests := s.requests[r := entry]), id)
  {
    var t := s.(requests := s.requests[r := entry]);
    if Issuing(s, id) {
      var q :| q in s.requests && s.requests[q] == OtpIssuing(Completion, id);
      assert t.requests[q] == s.requests[q];
    }
    if Writing(s, id) {
      var q :| q in s.requests && Writes(s.requests[q], id);
      assert t.requests[q] == s.requests[q];
    }
  }

  lemma TickKeepsAccounted(s: State, elapsed: nat, id: Id)
    requires OtpAccounted(s, id)
    ensures OtpAccounted(Step(s, Tick(elapsed)), id)
  {
    TickIs(s, elapsed);
    var t := s.(db := s.db.(now := s.db.now + elapsed));
    assert HasOtp(s.db, id, Completion) ==> HasOtp(t.db, id, Completion);
    assert UsedOtp(t.db, id, Completion) ==> UsedOtp(s.db, id, Completion);
    assert Issuing(s, id) ==> Issuing(t, id);
    assert Writing(s, id) ==> Writing(t, id);
  }

  lemma StepKeepsAccounted(s: State, a: Action, id: Id)
    requires Inv(s) && Enabled(s, a) && Faultless(a) && OtpAccounted(s, id)
    ensures OtpAccounted(Step(s, a), id)
  {
    match a
    case Start(r, entry) => StartKeepsAccounted(s, r, entry, id);
    case Tick(elapsed) => TickKeepsAccounted(s, elapsed, id);
    case Advance(r, c) =>
      if Verifying(Step(s, a).db, id) {
        if Verifying(s.db, id) {
          StillVerifyingIsAccounted(s, r, c, id, Step(s, a));
        } else {
          NewlyVerifyingIsAccounted(s, r, c, id, Step(s, a));
        }
      }
  }

  lemma {:induction false} RunKeepsAccounted(acts: seq<Action>, id: Id)
    requires IsRun(Init, acts) && FaultFree(acts)
    ensures OtpAccounted(After(Init, acts), id)
  {
    if acts == [] {
    } else {
      var front := acts[..|acts| - 1];
      RunKeepsAccounted(front, id);
      InitOk();
      RunKeepsInv(Init, front);
      StepKeepsAccounted(After(Init, front), acts[|acts| - 1], id);
    }
  }

  // An idle, fault-free state: there is exactly one completion OTP, it is unused, and the booking can
  // still be completed if and only if the OTP has not expired.
  lemma IdleCompletionIsPossibleIff(acts: seq<Action>, id: Id) returns (k: nat)
    requires IsRun(Init, acts) && FaultFree(acts) && Idle(After(Init, acts)) && Verifying(After(Init, acts).db, id)
    ensures var s := After(Init, acts);
            && OtpAt(s.db, k, id, Completion) && s.db.otps[k].usedAt.None?
            && (forall j: nat :: OtpAt(s.db, j, id, Completion) ==> j == k)
            && (CanComplete(s, id) <==> s.db.otps[k].expiresAt > s.db.now)
  {
    var s := After(Init, acts);
    RunKeepsAccounted(acts, id);
    CompletionIsPossibleIff(acts, id);
    k :| 0 <= k < |s.db.otps| && IsOtp(s.db.otps[k], id, Completion);
    forall j: nat | OtpAt(s.db, j, id, Completion) ensures j == k {
      OneCompletionOtp(acts, j, k, id);
    }
    assert s.db.otps[k].usedAt.Some? ==> UsedOtp(s.db, id, Completion);
    if s.db.otps[k].expiresAt > s.db.now {
      assert Active(s.db.otps[k], id, Completion, s.db.now);
    }
    if HasActive(s.db, id) {
      assert OtpAt(s.db, LatestActive(s.db.otps, id, Completion, s.db.now).value, id, Completion);
    }
    assert Completable(s, id) <==> HasActive(s.db, id);
  }

  // ------------------------------------------------------------------------------------------
  // A booking that gets stuck
  // ------------------------------------------------------------------------------------------

  // The user takes longer than a quarter of an hour: no continuation completes the booking.
  lemma ExpiredBookingIsStuck(args: CreateArgs) returns (acts: seq<Action>)
    requires args.price >= MIN_AMOUNT
    ensures Calm(acts) && Stuck(After(Init, acts).db, BOOKED, 1) && !CanComplete(After(Init, acts), BOOKED)
  {
    hide CanComplete, Calm, Completable;
    acts := HandedOver(args);
    acts := Waited(acts, OTP_TTL + 1);
    var s := After(Init, acts);
    assert Stuck(s.db, BOOKED, 1);
    CalmIsRun(acts);
    NoneAdvances(s, BOOKED);
    CompletionIsPossibleIff(acts, BOOKED);
  }

  lemma CalmIsRun(acts: seq<Action>)
    requires Calm(acts)
    ensures IsRun(Init, acts) && Idle(After(Init, acts))
  {
  }

  lemma NoneAdvances(s: State, id: Id)
    requires Idle(s) && !HasActive(s.db, id)
    ensures !Completable(s, id)
  {
  }

  // A fault can have the same effect at once: the booking awaits verification, but its OTP was never issued.
  lemma UnreportedHandoverIsStuck(args: CreateArgs, digest: string) returns (s: State, t: State, acts: seq<Action>)
    requires args.price >= MIN_AMOUNT
    ensures IsRun(Init, acts) && After(Init, acts) == t && Idle(t)
    ensures Verifying(t.db, BOOKED) && !HasOtp(t.db, BOOKED, Completion) && !CanComplete(t, BOOKED)
  {
    hide Served, CanComplete, Calm, Completable, IsRun, PlanOf, Intended;
    acts := Arrived(args);
    CalmIsRun(acts);
    s := After(Init, acts);
    var entry := MarkStart(BOOKED, args.provider);
    var c := Quiet(s.db);
    var lost := c.(fault := NotReported);
    MarkStarts(s.db, entry, c);
    MarkServes(s.db, entry, [c], s.db, BOOKED, lost);
    var r := UnusedId(s.requests.Keys);
    var after := Perform(s.db, RequestCompletion(BOOKED));
    HandledRequestIsARun(s, r, entry, [c] + [lost], after, Conflict);
    RunsConcat(Init, acts, Serving(r, entry, [c] + [lost]));
    acts := acts + Serving(r, entry, [c] + [lost]);
    t := After(Init, acts);
    assert t == State(after, s.requests[r := Done(Conflict)]);
    NoneAdvances(t, BOOKED);
    CompletionIsPossibleIff(acts, BOOKED);
  }
}
