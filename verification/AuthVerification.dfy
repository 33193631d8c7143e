/**
 Sign-up, verification codes and login of the authentication service, one request at a time.  How
 addresses are normalised and codes and passwords hashed is left open.
 */
module AuthVerification {
  import opened Common

  const OTP_TTL := 10 * 60 * 1000

  type Id = nat

  datatype Kind = Email | Phone

  datatype Account = User | Provider | Admin

  datatype Environment = Environment(
    normalize: (Kind, string) -> string,
    hash: string -> string,
    passwordMatches: (string, string) -> bool)

  datatype Identity = Identity(email: Option<string>, phone: Option<string>, password: string, account: Account,
                               active: bool)

  // One row of identity_verifications.  The code's hash and its expiry are set together.
  datatype Code = Code(hash: string, expiresAt: int)

  datatype Record = Record(identity: Id, kind: Kind, value: string, verifiedAt: Option<int>, code: Option<Code>)

  datatype State = State(
    identities: map<Id, Identity>,
    records: seq<Record>,
    accepted: seq<(Id, Kind)>)      // history: the accepted verifications

  const Init := State(map[], [], [])

  datatype Reply =
    | SignedUp(id: Id)
    | LoggedIn(id: Id)
    | CodeSent
    | AlreadyVerified
    | Accepted
    | StatusSet
    | InvalidPayload
    | EmailExists
    | PhoneExists
    | InvalidCredentials
    | AccountInactive
    | NotVerified
    | VerificationNotFound
    | ValueMismatch
    | OtpExpired
    | OtpInvalid
    | UniqueViolation

  // ------------------------------------------------------------------------------------------
  // Queries
  // ------------------------------------------------------------------------------------------

  // The empty string is no address.
  predicate Given(value: Option<string>) {
    value.Some? && value.value != ""
  }

  function Address(i: Identity, kind: Kind): Option<string> {
    if kind.Email? then i.email else i.phone
  }

  predicate HasAddress(i: Identity, kind: Kind, value: string, account: Account) {
    Address(i, kind) == Some(value) && i.account == account
  }

  ghost predicate AddressTaken(identities: map<Id, Identity>, kind: Kind, value: string, account: Account) {
    exists id :: id in identities && HasAddress(identities[id], kind, value, account)
  }

  ghost function FindIdentity(identities: map<Id, Identity>, kind: Kind, value: string, account: Account)
    : (found: Option<Id>)
    ensures found.Some? ==> found.value in identities && HasAddress(identities[found.value], kind, value, account)
    ensures found.None? ==> !AddressTaken(identities, kind, value, account)
  {
    if AddressTaken(identities, kind, value, account) then
      var id :| id in identities && HasAddress(identities[id], kind, value, account);
      Some(id)
    else
      None
  }

  predicate IsOf(r: Record, id: Id, kind: Kind) {
    r.identity == id && r.kind == kind
  }

  predicate IsVerified(records: seq<Record>, id: Id, kind: Kind) {
    exists k :: 0 <= k < |records| && IsOf(records[k], id, kind) && records[k].verifiedAt.Some?
  }

  predicate PendingFor(r: Record, id: Id, kind: Kind, value: string) {
    IsOf(r, id, kind) && r.value == value && r.verifiedAt.None?
  }

  function FindPending(records: seq<Record>, id: Id, kind: Kind, value: string): (found: Option<nat>)
    ensures found.Some? ==> found.value < |records| && PendingFor(records[found.value], id, kind, value)
    ensures found.None? ==> forall k :: 0 <= k < |records| ==> !PendingFor(records[k], id, kind, value)
  {
    if records == [] then
      None
    else
      var found := FindPending(records[..|records| - 1], id, kind, value);
      if found.Some? then
        found
      else if PendingFor(records[|records| - 1], id, kind, value) then
        Some(|records| - 1)
      else
        None
  }

  // ------------------------------------------------------------------------------------------
  // Requests
  // ------------------------------------------------------------------------------------------

  // The unique index over identity, kind and value.
  predicate RecordTaken(records: seq<Record>, r: Record) {
    exists k :: 0 <= k < |records| && IsOf(records[k], r.identity, r.kind) && records[k].value == r.value
  }

  datatype Result = Result(state: State, reply: Reply)

  function Insert(s: State, r: Record, reply: Reply): Result {
    if RecordTaken(s.records, r) then Result(s, UniqueViolation) else Result(s.(records := s.records + [r]), reply)
  }

  function NormalizedIfGiven(env: Environment, kind: Kind, value: Option<string>): Option<string> {
    if Given(value) then Some(env.normalize(kind, value.value)) else None
  }

  // The verification rows of a sign-up hold the addresses as submitted, without normalising them.
  function SignupRecord(s: State, id: Id, kind: Kind, value: Option<string>, reply: Reply): Result {
    if Given(value) then Insert(s, Record(id, kind, value.value, None, None), reply) else Result(s, reply)
  }

  ghost predicate IdentityTaken(identities: map<Id, Identity>, i: Identity) {
    || (i.email.Some? && AddressTaken(identities, Email, i.email.value, i.account))
    || (i.phone.Some? && AddressTaken(identities, Phone, i.phone.value, i.account))
  }

  ghost function Signup(env: Environment, s: State, email: Option<string>, phone: Option<string>, password: string,
                        account: Account, newId: Id): Result
  {
    var identity := Identity(NormalizedIfGiven(env, Email, email), NormalizedIfGiven(env, Phone, phone), password,
                             account, true);
    if !Given(email) && !Given(phone) then
      Result(s, InvalidPayload)
    else if Given(email) && AddressTaken(s.identities, Email, identity.email.value, account) then
      Result(s, EmailExists)
    else if Given(phone) && AddressTaken(s.identities, Phone, identity.phone.value, account) then
      Result(s, PhoneExists)
    else if IdentityTaken(s.identities, identity) then
      Result(s, UniqueViolation)
    else
      var t := s.(identities := s.identities[newId := identity]);
      var first := SignupRecord(t, newId, Email, email, SignedUp(newId));
      if first.reply.UniqueViolation? then first else SignupRecord(first.state, newId, Phone, phone, SignedUp(newId))
  }

  // The row to carry the code is looked up, and created, under the value normalised once more.
  function Upsert(env: Environment, s: State, id: Id, kind: Kind, value: string, code: Code): Result {
    var normalized := env.normalize(kind, value);
    var existing := FindPending(s.records, id, kind, normalized);
    if existing.Some? then
      var k := existing.value;
      Result(s.(records := s.records[k := s.records[k].(code := Some(code))]), CodeSent)
    else
      Insert(s, Record(id, kind, normalized, None, Some(code)), CodeSent)
  }

  function SendVerification(env: Environment, s: State, id: Id, kind: Kind, value: string, code: string, now: int): Result {
    if id !in s.identities then
      Result(s, VerificationNotFound)
    else if Address(s.identities[id], kind) != Some(env.normalize(kind, value)) then
      Result(s, ValueMismatch)
    else if IsVerified(s.records, id, kind) then
      Result(s, AlreadyVerified)
    else
      Upsert(env, s, id, kind, env.normalize(kind, value), Code(env.hash(code), now + OTP_TTL))
  }

  function MarkVerified(records: seq<Record>, id: Id, kind: Kind, now: int): (marked: seq<Record>)
    ensures |marked| == |records|
    ensures forall k :: 0 <= k < |records| ==>
              marked[k] == if IsOf(records[k], id, kind) && records[k].verifiedAt.None? then
                             records[k].(verifiedAt := Some(now))
                           else
                             records[k]
  {
    if records == [] then
      []
    else
      var r := records[|records| - 1];
      MarkVerified(records[..|records| - 1], id, kind, now) +
      [if IsOf(r, id, kind) && r.verifiedAt.None? then r.(verifiedAt := Some(now)) else r]
  }

  function Verify(env: Environment, s: State, id: Id, kind: Kind, value: string, code: string, now: int): Result {
    var pending := FindPending(s.records, id, kind, env.normalize(kind, value));
    if pending.None? then
      Result(s, VerificationNotFound)
    else
      var record := s.records[pending.value];
      if record.code.None? then
        Result(s, OtpExpired)
      else if record.code.value.expiresAt < now || env.hash(code) != record.code.value.hash then
        Result(s, OtpInvalid)
      else
        Result(s.(records := MarkVerified(s.records, id, kind, now), accepted := s.accepted + [(id, kind)]), Accepted)
  }

  ghost function Login(env: Environment, s: State, kind: Kind, value: string, password: string, loginAs: Option<Account>)
    : Reply
  {
    if loginAs.None? then
      InvalidPayload
    else if value == "" || password == "" then
      InvalidCredentials
    else
      match FindIdentity(s.identities, kind, env.normalize(kind, value), loginAs.value)
      case None => InvalidCredentials
      case Some(id) =>
        var identity := s.identities[id];
        if !identity.active then
          AccountInactive
        else if !env.passwordMatches(password, identity.password) then
          InvalidCredentials
        else if !IsVerified(s.records, id, kind) then
          NotVerified
        else
          LoggedIn(id)
  }

  // ------------------------------------------------------------------------------------------
  // Runs
  // ------------------------------------------------------------------------------------------

  datatype Call =
    | SignupCall(email: Option<string>, phone: Option<string>, password: string, account: Account, newId: Id)
    | SendCall(id: Id, kind: Kind, value: string, code: string, now: int)
    | VerifyCall(id: Id, kind: Kind, value: string, code: string, now: int)
    | LoginCall(kind: Kind, value: string, password: string, loginAs: Option<Account>)
    | SetActive(id: Id, active: bool)

  ghost predicate Enabled(s: State, c: Call) {
    match c
    case SignupCall(_, _, _, _, newId) => newId !in s.identities
    case SetActive(id, _) => id in s.identities
    case _ => true
  }

  ghost function Step(env: Environment, s: State, c: Call): Result
    requires Enabled(s, c)
  {
    match c
    case SignupCall(email, phone, password, account, newId) => Signup(env, s, email, phone, password, account, newId)
    case SendCall(id, kind, value, code, now) => SendVerification(env, s, id, kind, value, code, now)
    case VerifyCall(id, kind, value, code, now) => Verify(env, s, id, kind, value, code, now)
    case LoginCall(kind, value, password, loginAs) => Result(s, Login(env, s, kind, value, password, loginAs))
    case SetActive(id, active) =>
      Result(s.(identities := s.identities[id := s.identities[id].(active := active)]), StatusSet)
  }

  ghost predicate IsRun(env: Environment, s: State, calls: seq<Call>)
    decreases calls, 0
  {
    calls == [] ||
    (IsRun(env, s, calls[..|calls| - 1]) && Enabled(After(env, s, calls[..|calls| - 1]), calls[|calls| - 1]))
  }

  ghost function After(env: Environment, s: State, calls: seq<Call>): State
    requires IsRun(env, s, calls)
    decreases calls, 1
  {
    if calls == [] then s else Step(env, After(env, s, calls[..|calls| - 1]), calls[|calls| - 1]).state
  }

  // ------------------------------------------------------------------------------------------
  // The invariant
  // ------------------------------------------------------------------------------------------

  ghost predicate AllOrNone(records: seq<Record>) {
    forall j, k :: 0 <= j < |records| && 0 <= k < |records| && IsOf(records[j], records[k].identity, records[k].kind) ==>
                     records[j].verifiedAt.Some? == records[k].verifiedAt.Some?
  }

  ghost predicate RecordsUnique(records: seq<Record>) {
    forall j, k :: 0 <= j < k < |records| && IsOf(records[j], records[k].identity, records[k].kind) ==>
                     records[j].value != records[k].value
  }

  // Codes are sent only for the identity's own address.
  predicate RecordOk(env: Environment, identities: map<Id, Identity>, r: Record) {
    && r.identity in identities
    && (r.code.Some? ==>
          var address := Address(identities[r.identity], r.kind);
          address.Some? && r.value == env.normalize(r.kind, address.value))
  }

  ghost predicate IdentitiesUnique(identities: map<Id, Identity>) {
    forall x, y, kind :: x in identities && y in identities && x != y && Address(identities[x], kind).Some? ==>
                           Address(identities[x], kind) != Address(identities[y], kind) ||
                           identities[x].account != identities[y].account
  }

  ghost predicate HistoryOk(s: State) {
    && (forall i :: 0 <= i < |s.accepted| ==> IsVerified(s.records, s.accepted[i].0, s.accepted[i].1))
    && (forall i, j :: 0 <= i < j < |s.accepted| ==> s.accepted[i] != s.accepted[j])
    && (forall k :: 0 <= k < |s.records| && s.records[k].verifiedAt.Some? ==>
                      (s.records[k].identity, s.records[k].kind) in s.accepted)
  }

  ghost predicate Ok(env: Environment, s: State) {
    && AllOrNone(s.records) && RecordsUnique(s.records) && IdentitiesUnique(s.identities) && HistoryOk(s)
    && forall k :: 0 <= k < |s.records| ==> RecordOk(env, s.identities, s.records[k])
  }

  lemma InsertKeepsRecords(records: seq<Record>, r: Record)
    requires AllOrNone(records) && RecordsUnique(records)
    requires r.verifiedAt.None? && !IsVerified(records, r.identity, r.kind) && !RecordTaken(records, r)
    ensures AllOrNone(records + [r]) && RecordsUnique(records + [r])
  {
    forall k | 0 <= k < |records| && IsOf(records[k], r.identity, r.kind)
      ensures records[k].verifiedAt.None? && records[k].value != r.value
    {
    }
  }

  lemma InsertKeepsHistory(s: State, r: Record)
    requires HistoryOk(s) && r.verifiedAt.None?
    ensures HistoryOk(s.(records := s.records + [r]))
  {
    var t := s.(records := s.records + [r]);
    forall i | 0 <= i < |s.accepted| ensures IsVerified(t.records, s.accepted[i].0, s.accepted[i].1) {
      assert IsVerified(s.records, s.accepted[i].0, s.accepted[i].1);
      var k :| 0 <= k < |s.records| && IsOf(s.records[k], s.accepted[i].0, s.accepted[i].1) &&
               s.records[k].verifiedAt.Some?;
      assert t.records[k] == s.records[k];
    }
  }

  lemma InsertKeepsOk(env: Environment, s: State, r: Record, reply: Reply)
    requires Ok(env, s) && RecordOk(env, s.identities, r) && r.verifiedAt.None?
    requires !IsVerified(s.records, r.identity, r.kind)
    ensures Ok(env, Insert(s, r, reply).state)
  {
    if !RecordTaken(s.records, r) {
      InsertKeepsRecords(s.records, r);
      InsertKeepsHistory(s, r);
    }
  }

  lemma IdentityKeepsOk(env: Environment, s: State, id: Id, i: Identity)
    requires Ok(env, s) && id !in s.identities && !IdentityTaken(s.identities, i)
    ensures Ok(env, s.(identities := s.identities[id := i]))
    ensures forall kind :: !IsVerified(s.records, id, kind)
  {
    var t := s.(identities := s.identities[id := i]);
    forall x, y, kind | x in t.identities && y in t.identities && x != y && Address(t.identities[x], kind).Some?
      ensures Address(t.identities[x], kind) != Address(t.identities[y], kind) ||
              t.identities[x].account != t.identities[y].account
    {
      if x == id && Address(i, kind) == Address(t.identities[y], kind) {
        assert HasAddress(s.identities[y], kind, Address(i, kind).value, t.identities[y].account);
      }
      if y == id && Address(t.identities[x], kind) == Address(i, kind) {
        assert HasAddress(s.identities[x], kind, Address(i, kind).value, t.identities[x].account);
      }
    }
    assert forall k :: 0 <= k < |s.records| ==> RecordOk(env, s.identities, s.records[k]);
  }

  lemma SignupRecordIsOk(env: Environment, s: State, id: Id, kind: Kind, value: Option<string>, reply: Reply)
    requires Ok(env, s) && id in s.identities
    requires forall k :: 0 <= k < |s.records| ==> !IsOf(s.records[k], id, kind)
    ensures Ok(env, SignupRecord(s, id, kind, value, reply).state)
    ensures SignupRecord(s, id, kind, value, reply).reply == reply
    ensures SignupRecord(s, id, kind, value, reply).state.identities == s.identities
    ensures forall k, other :: 0 <= k < |SignupRecord(s, id, kind, value, reply).state.records| && other != kind &&
                               IsOf(SignupRecord(s, id, kind, value, reply).state.records[k], id, other) ==>
                                 k < |s.records| && IsOf(s.records[k], id, other)
  {
    if Given(value) {
      InsertKeepsOk(env, s, Record(id, kind, value.value, None, None), reply);
    }
  }

  // A sign-up keeps the invariant and never violates a unique index.
  lemma SignupIsOk(env: Environment, s: State, email: Option<string>, phone: Option<string>, password: string,
                   account: Account, newId: Id)
    requires Ok(env, s) && newId !in s.identities
    ensures Ok(env, Signup(env, s, email, phone, password, account, newId).state)
    ensures !Signup(env, s, email, phone, password, account, newId).reply.UniqueViolation?
  {
    var identity := Identity(NormalizedIfGiven(env, Email, email), NormalizedIfGiven(env, Phone, phone), password,
                             account, true);
    if Signup(env, s, email, phone, password, account, newId).reply !in {InvalidPayload, EmailExists, PhoneExists} {
      var t := s.(identities := s.identities[newId := identity]);
      IdentityKeepsOk(env, s, newId, identity);
      forall k | 0 <= k < |s.records| ensures s.records[k].identity != newId {
        assert RecordOk(env, s.identities, s.records[k]);
      }
      SignupRecordIsOk(env, t, newId, Email, email, SignedUp(newId));
      SignupRecordIsOk(env, SignupRecord(t, newId, Email, email, SignedUp(newId)).state, newId, Phone, phone,
                       SignedUp(newId));
    }
  }

  lemma CodeKeepsOk(env: Environment, s: State, k: nat, code: Code)
    requires Ok(env, s) && k < |s.records| && RecordOk(env, s.identities, s.records[k].(code := Some(code)))
    ensures Ok(env, s.(records := s.records[k := s.records[k].(code := Some(code))]))
  {
    var t := s.(records := s.records[k := s.records[k].(code := Some(code))]);
    forall id, kind | IsVerified(s.records, id, kind) ensures IsVerified(t.records, id, kind) {
      var j :| 0 <= j < |s.records| && IsOf(s.records[j], id, kind) && s.records[j].verifiedAt.Some?;
      assert IsOf(t.records[j], id, kind) && t.records[j].verifiedAt.Some?;
    }
  }

  lemma SendIsOk(env: Environment, s: State, id: Id, kind: Kind, value: string, code: string, now: int)
    requires Ok(env, s)
    ensures Ok(env, SendVerification(env, s, id, kind, value, code, now).state)
    ensures !SendVerification(env, s, id, kind, value, code, now).reply.UniqueViolation?
  {
    if id in s.identities && Address(s.identities[id], kind) == Some(env.normalize(kind, value)) &&
       !IsVerified(s.records, id, kind)
    {
      var normalized := env.normalize(kind, env.normalize(kind, value));
      var c := Code(env.hash(code), now + OTP_TTL);
      var existing := FindPending(s.records, id, kind, normalized);
      if existing.Some? {
        assert RecordOk(env, s.identities, s.records[existing.value].(code := Some(c)));
        CodeKeepsOk(env, s, existing.value, c);
      } else {
        InsertKeepsOk(env, s, Record(id, kind, normalized, None, Some(c)), CodeSent);
        forall k | 0 <= k < |s.records| && IsOf(s.records[k], id, kind) ensures s.records[k].verifiedAt.None? {
        }
      }
    }
  }

  lemma MarkingKeepsRecords(env: Environment, s: State, id: Id, kind: Kind, now: int)
    requires Ok(env, s)
    ensures var marked := MarkVerified(s.records, id, kind, now);
            && AllOrNone(marked) && RecordsUnique(marked)
            && (forall k :: 0 <= k < |marked| ==> RecordOk(env, s.identities, marked[k]))
  {
    var marked := MarkVerified(s.records, id, kind, now);
    forall k | 0 <= k < |marked| ensures RecordOk(env, s.identities, marked[k]) {
      assert RecordOk(env, s.identities, s.records[k]);
    }
  }

  lemma MarkingKeepsHistory(s: State, id: Id, kind: Kind, now: int, k: nat)
    requires HistoryOk(s) && AllOrNone(s.records)
    requires k < |s.records| && IsOf(s.records[k], id, kind) && s.records[k].verifiedAt.None?
    ensures HistoryOk(s.(records := MarkVerified(s.records, id, kind, now), accepted := s.accepted + [(id, kind)]))
  {
    var marked, accepted := MarkVerified(s.records, id, kind, now), s.accepted + [(id, kind)];
    assert !IsVerified(s.records, id, kind);
    assert IsVerified(marked, id, kind) by { assert IsOf(marked[k], id, kind); }
    forall i | 0 <= i < |s.accepted| ensures IsVerified(marked, accepted[i].0, accepted[i].1) {
      assert IsVerified(s.records, s.accepted[i].0, s.accepted[i].1);
      var j :| 0 <= j < |s.records| && IsOf(s.records[j], s.accepted[i].0, s.accepted[i].1) &&
               s.records[j].verifiedAt.Some?;
      assert marked[j] == s.records[j];
    }
    forall j | 0 <= j < |marked| && marked[j].verifiedAt.Some?
      ensures (marked[j].identity, marked[j].kind) in accepted
    {
      if s.records[j].verifiedAt.Some? {
        assert (s.records[j].identity, s.records[j].kind) in s.accepted;
      } else {
        assert accepted[|s.accepted|] == (id, kind);
      }
    }
  }

  lemma VerifyIsOk(env: Environment, s: State, id: Id, kind: Kind, value: string, code: string, now: int)
    requires Ok(env, s)
    ensures Ok(env, Verify(env, s, id, kind, value, code, now).state)
  {
    if Verify(env, s, id, kind, value, code, now).reply.Accepted? {
      MarkingKeepsRecords(env, s, id, kind, now);
      MarkingKeepsHistory(s, id, kind, now, FindPending(s.records, id, kind, env.normalize(kind, value)).value);
    }
  }

  lemma StepKeepsOk(env: Environment, s: State, c: Call)
    requires Ok(env, s) && Enabled(s, c)
    ensures Ok(env, Step(env, s, c).state) && !Step(env, s, c).reply.UniqueViolation?
  {
    match c
    case SignupCall(email, phone, password, account, newId) => SignupIsOk(env, s, email, phone, password, account, newId);
    case SendCall(id, kind, value, code, now) => SendIsOk(env, s, id, kind, value, code, now);
    case VerifyCall(id, kind, value, code, now) => VerifyIsOk(env, s, id, kind, value, code, now);
    case LoginCall(_, _, _, _) =>
    case SetActive(id, active) =>
      assert forall k :: 0 <= k < |s.records| ==> RecordOk(env, s.identities, s.records[k]);
  }

  lemma {:induction false} RunKeepsOk(env: Environment, calls: seq<Call>)
    requires IsRun(env, Init, calls)
    ensures Ok(env, After(env, Init, calls))
  {
    if calls == [] {
    } else {
      RunKeepsOk(env, calls[..|calls| - 1]);
      StepKeepsOk(env, After(env, Init, calls[..|calls| - 1]), calls[|calls| - 1]);
    }
  }

  // ------------------------------------------------------------------------------------------
  // What follows for every run
  // ------------------------------------------------------------------------------------------

  // The verification rows of one identity and kind are all pending or all verified, and they are
  // verified exactly if a code was accepted.
  lemma VerificationIsAllOrNone(env: Environment, calls: seq<Call>, id: Id, kind: Kind)
    requires IsRun(env, Init, calls)
    ensures var s := After(env, Init, calls);
            && (IsVerified(s.records, id, kind) <==> (id, kind) in s.accepted)
            && (IsVerified(s.records, id, kind) ==>
                  forall k :: 0 <= k < |s.records| && IsOf(s.records[k], id, kind) ==> s.records[k].verifiedAt.Some?)
  {
    RunKeepsOk(env, calls);
    var s := After(env, Init, calls);
    if IsVerified(s.records, id, kind) {
      var k :| 0 <= k < |s.records| && IsOf(s.records[k], id, kind) && s.records[k].verifiedAt.Some?;
      assert (s.records[k].identity, s.records[k].kind) in s.accepted;
    }
    if (id, kind) in s.accepted {
      var i :| 0 <= i < |s.accepted| && s.accepted[i] == (id, kind);
      assert IsVerified(s.records, s.accepted[i].0, s.accepted[i].1);
    }
  }

  // At most one code is ever accepted for an identity and kind, though many may have been sent.
  lemma CodesAreAcceptedOnce(env: Environment, calls: seq<Call>, i: nat, j: nat)
    requires IsRun(env, Init, calls)
    requires i < |After(env, Init, calls).accepted| && j < |After(env, Init, calls).accepted|
    requires After(env, Init, calls).accepted[i] == After(env, Init, calls).accepted[j]
    ensures i == j
  {
    RunKeepsOk(env, calls);
  }

  // Once verified: the rows are frozen and no row of that kind is added.
  ghost predicate Frozen(s: State, t: State, id: Id, kind: Kind) {
    && |s.records| <= |t.records|
    && (forall k :: 0 <= k < |s.records| && IsOf(s.records[k], id, kind) ==> t.records[k] == s.records[k])
    && (forall k :: 0 <= k < |t.records| && IsOf(t.records[k], id, kind) ==>
                      k < |s.records| && IsOf(s.records[k], id, kind))
  }

  lemma SignupKeepsFrozen(env: Environment, s: State, c: Call, id: Id, kind: Kind)
    requires c.SignupCall? && Ok(env, s) && Enabled(s, c) && IsVerified(s.records, id, kind)
    ensures Frozen(s, Step(env, s, c).state, id, kind)
  {
    assert id != c.newId by {
      var k :| 0 <= k < |s.records| && IsOf(s.records[k], id, kind) && s.records[k].verifiedAt.Some?;
      assert RecordOk(env, s.identities, s.records[k]);
    }
    SignupTouchesNewOnly(env, s, c);
  }

  lemma SignupTouchesNewOnly(env: Environment, s: State, c: Call)
    requires c.SignupCall?
    ensures var t := Signup(env, s, c.email, c.phone, c.password, c.account, c.newId).state;
            s.records <= t.records && forall k :: |s.records| <= k < |t.records| ==> t.records[k].identity == c.newId
  {
  }

  lemma StepKeepsFrozen(env: Environment, s: State, c: Call, id: Id, kind: Kind)
    requires Ok(env, s) && Enabled(s, c) && IsVerified(s.records, id, kind)
    ensures Frozen(s, Step(env, s, c).state, id, kind)
  {
    if c.SignupCall? {
      SignupKeepsFrozen(env, s, c, id, kind);
    } else if c.SendCall? || c.VerifyCall? {
      AllAreVerified(s, id, kind);
    }
  }

  lemma AllAreVerified(s: State, id: Id, kind: Kind)
    requires AllOrNone(s.records) && IsVerified(s.records, id, kind)
    ensures forall k :: 0 <= k < |s.records| && IsOf(s.records[k], id, kind) ==> s.records[k].verifiedAt.Some?
  {
  }

  lemma FrozenStaysVerified(s: State, t: State, u: State, id: Id, kind: Kind)
    requires Frozen(s, t, id, kind) && IsVerified(s.records, id, kind)
    ensures IsVerified(t.records, id, kind)
    ensures Frozen(t, u, id, kind) ==> Frozen(s, u, id, kind)
  {
    var k :| 0 <= k < |s.records| && IsOf(s.records[k], id, kind) && s.records[k].verifiedAt.Some?;
    assert t.records[k] == s.records[k];
  }

  lemma {:induction false} VerifiedStaysFrozen(env: Environment, s: State, more: seq<Call>, id: Id, kind: Kind)
    requires Ok(env, s) && IsRun(env, s, more) && IsVerified(s.records, id, kind)
    ensures Ok(env, After(env, s, more)) && Frozen(s, After(env, s, more), id, kind)
  {
    if more == [] {
    } else {
      var front, c := more[..|more| - 1], more[|more| - 1];
      var t := After(env, s, front);
      VerifiedStaysFrozen(env, s, front, id, kind);
      FrozenStaysVerified(s, t, After(env, s, more), id, kind);
      StepKeepsFrozen(env, t, c, id, kind);
      StepKeepsOk(env, t, c);
    }
  }

  // Verified never reverts, no pending row of that kind appears afterwards, and no further code is
  // accepted, whatever requests follow.
  lemma VerifiedIsFinal(env: Environment, calls: seq<Call>, more: seq<Call>, id: Id, kind: Kind, value: string,
                        code: string, now: int)
    requires IsRun(env, Init, calls) && IsRun(env, After(env, Init, calls), more)
    requires IsVerified(After(env, Init, calls).records, id, kind)
    ensures var later := After(env, After(env, Init, calls), more);
            && Frozen(After(env, Init, calls), later, id, kind)
            && IsVerified(later.records, id, kind)
            && (forall k :: 0 <= k < |later.records| && IsOf(later.records[k], id, kind) ==>
                              later.records[k].verifiedAt.Some?)
            && Verify(env, later, id, kind, value, code, now) == Result(later, VerificationNotFound)
  {
    RunKeepsOk(env, calls);
    var s, later := After(env, Init, calls), After(env, After(env, Init, calls), more);
    VerifiedStaysFrozen(env, s, more, id, kind);
    FrozenStaysVerified(s, later, later, id, kind);
    AllAreVerified(later, id, kind);
  }

  // A code is accepted only for the identity's own address.
  lemma AcceptedCodesAreForOwnAddress(env: Environment, calls: seq<Call>, id: Id, kind: Kind, value: string, code: string,
                                      now: int)
    requires IsRun(env, Init, calls)
    requires Verify(env, After(env, Init, calls), id, kind, value, code, now).reply.Accepted?
    ensures var s := After(env, Init, calls);
            && id in s.identities && Address(s.identities[id], kind).Some?
            && env.normalize(kind, value) == env.normalize(kind, Address(s.identities[id], kind).value)
  {
    RunKeepsOk(env, calls);
    var s := After(env, Init, calls);
    var k := FindPending(s.records, id, kind, env.normalize(kind, value)).value;
    assert RecordOk(env, s.identities, s.records[k]);
  }

  // A login succeeds only with the right password for an active identity whose address of that kind,
  // the one it logs in with, had its code accepted.
  lemma LoginNeedsAcceptedCode(env: Environment, calls: seq<Call>, kind: Kind, value: string, password: string,
                               loginAs: Option<Account>)
    requires IsRun(env, Init, calls)
    ensures var s := After(env, Init, calls);
            var reply := Login(env, s, kind, value, password, loginAs);
            (exists id :: reply == LoggedIn(id)) <==>
            value != "" && password != "" && loginAs.Some? &&
            exists id :: id in s.identities && HasAddress(s.identities[id], kind, env.normalize(kind, value), loginAs.value)
                         && s.identities[id].active && env.passwordMatches(password, s.identities[id].password)
                         && (id, kind) in s.accepted
  {
    RunKeepsOk(env, calls);
    var s := After(env, Init, calls);
    if value != "" && password != "" && loginAs.Some? {
      var found := FindIdentity(s.identities, kind, env.normalize(kind, value), loginAs.value);
      if found.Some? {
        VerificationIsAllOrNone(env, calls, found.value, kind);
        forall id | id in s.identities && HasAddress(s.identities[id], kind, env.normalize(kind, value), loginAs.value)
          ensures id == found.value
        {
          assert Address(s.identities[id], kind) == Address(s.identities[found.value], kind);
        }
      }
    }
  }

  // The code just sent, and no other, verifies the address until ten minutes have passed, in whatever
  // spelling it is given: the row is found once the submitted value normalises like the stored one.
  lemma SentCodeVerifies(env: Environment, calls: seq<Call>, id: Id, kind: Kind, value: string, code: string, sent: int,
                         again: string, submitted: string, now: int)
    requires IsRun(env, Init, calls)
    requires SendVerification(env, After(env, Init, calls), id, kind, value, code, sent).reply.CodeSent?
    requires env.normalize(kind, again) == env.normalize(kind, env.normalize(kind, value))
    ensures var s := SendVerification(env, After(env, Init, calls), id, kind, value, code, sent).state;
            Verify(env, s, id, kind, again, submitted, now).reply ==
              if now <= sent + OTP_TTL && env.hash(submitted) == env.hash(code) then Accepted else OtpInvalid
  {
    var before := After(env, Init, calls);
    var stored := Code(env.hash(code), sent + OTP_TTL);
    var sending := SendVerification(env, before, id, kind, value, code, sent);
    assert Ok(env, sending.state) by {
      RunKeepsOk(env, calls);
      SendIsOk(env, before, id, kind, value, code, sent);
    }
    assert sending == Upsert(env, before, id, kind, env.normalize(kind, value), stored);
    var k := CodeIsStored(env, before, id, kind, env.normalize(kind, value), stored);
    StoredCodeVerifies(env, sending.state, k, id, kind, again, submitted, now);
  }

  lemma StoredCodeVerifies(env: Environment, s: State, k: nat, id: Id, kind: Kind, value: string, submitted: string,
                           now: int)
    requires RecordsUnique(s.records) && k < |s.records| && s.records[k].code.Some?
    requires PendingFor(s.records[k], id, kind, env.normalize(kind, value))
    ensures var code := s.records[k].code.value;
            Verify(env, s, id, kind, value, submitted, now).reply ==
              if now <= code.expiresAt && env.hash(submitted) == code.hash then Accepted else OtpInvalid
  {
    var found := FindPending(s.records, id, kind, env.normalize(kind, value));
    assert found == Some(k);
  }

  lemma CodeIsStored(env: Environment, s: State, id: Id, kind: Kind, value: string, code: Code) returns (k: nat)
    requires Upsert(env, s, id, kind, value, code).reply.CodeSent?
    ensures var records := Upsert(env, s, id, kind, value, code).state.records;
            && k < |records| && PendingFor(records[k], id, kind, env.normalize(kind, value))
            && records[k].code == Some(code)
  {
    var existing := FindPending(s.records, id, kind, env.normalize(kind, value));
    k := if existing.Some? then existing.value else |s.records|;
  }

  lemma RunExtends(env: Environment, calls: seq<Call>, c: Call)
    requires IsRun(env, Init, calls) && Enabled(After(env, Init, calls), c)
    ensures IsRun(env, Init, calls + [c])
    ensures After(env, Init, calls + [c]) == Step(env, After(env, Init, calls), c).state
  {
    assert (calls + [c])[..|calls|] == calls;
  }

  // What a sign-up leaves behind: an identity with the normalised addresses and nothing verified.
  lemma SignupCreates(env: Environment, s: State, email: Option<string>, phone: Option<string>, password: string,
                      account: Account, newId: Id)
    requires Ok(env, s) && newId !in s.identities
    requires Signup(env, s, email, phone, password, account, newId).reply.SignedUp?
    ensures var t := Signup(env, s, email, phone, password, account, newId).state;
            && newId in t.identities
            && t.identities[newId] == Identity(NormalizedIfGiven(env, Email, email), NormalizedIfGiven(env, Phone, phone),
                                               password, account, true)
            && (forall kind :: !IsVerified(t.records, newId, kind))
            && (forall id :: id in s.identities ==> id in t.identities && t.identities[id] == s.identities[id])
            && t.identities.Keys == s.identities.Keys + {newId} && t.accepted == s.accepted
            && t.records == s.records + (if Given(email) then [Record(newId, Email, email.value, None, None)] else [])
                            + (if Given(phone) then [Record(newId, Phone, phone.value, None, None)] else [])
  {
    forall k | 0 <= k < |s.records| ensures s.records[k].identity != newId {
      assert RecordOk(env, s.identities, s.records[k]);
    }
  }

  // ------------------------------------------------------------------------------------------
  // Who is answered what
  // ------------------------------------------------------------------------------------------

  // The identity is of that account type and has that address.
  predicate Holds(identities: map<Id, Identity>, id: Id, kind: Kind, address: string, account: Account) {
    && id in identities && identities[id].account == account
    && (if kind.Email? then identities[id].email == Some(address) else identities[id].phone == Some(address))
  }

  ghost predicate Registered(env: Environment, s: State, kind: Kind, address: Option<string>, account: Account) {
    address.Some? && address.value != "" &&
    exists id :: Holds(s.identities, id, kind, env.normalize(kind, address.value), account)
  }

  // A sign-up succeeds if and only if it brings an address, and no identity of the same account type has one
  // of those it brings; otherwise it changes nothing and is told what is wrong, the e-mail address first.
  lemma SignupReplies(env: Environment, s: State, email: Option<string>, phone: Option<string>, password: string,
                      account: Account, newId: Id)
    requires Ok(env, s) && newId !in s.identities
    ensures var t := Signup(env, s, email, phone, password, account, newId);
            var none := (email.None? || email.value == "") && (phone.None? || phone.value == "");
            var emailTaken, phoneTaken := Registered(env, s, Email, email, account), Registered(env, s, Phone, phone, account);
            && (t.reply == InvalidPayload <==> none)
            && (t.reply == EmailExists <==> emailTaken)
            && (t.reply == PhoneExists <==> phoneTaken && !emailTaken)
            && (t.reply == SignedUp(newId) <==> !none && !emailTaken && !phoneTaken)
            && (t.reply != SignedUp(newId) ==> t.state == s && t.reply in {InvalidPayload, EmailExists, PhoneExists})
  {
    hide Ok;
    SignupIsOk(env, s, email, phone, password, account, newId);
    TakenIffHeld(s, Email, if email.Some? then env.normalize(Email, email.value) else "", account);
    TakenIffHeld(s, Phone, if phone.Some? then env.normalize(Phone, phone.value) else "", account);
  }

  lemma TakenIffHeld(s: State, kind: Kind, address: string, account: Account)
    ensures AddressTaken(s.identities, kind, address, account) <==>
            exists id :: Holds(s.identities, id, kind, address, account)
  {
    assert forall id :: id in s.identities && HasAddress(s.identities[id], kind, address, account) ==>
                          Holds(s.identities, id, kind, address, account);
    assert forall id :: Holds(s.identities, id, kind, address, account) ==>
                          HasAddress(s.identities[id], kind, address, account);
  }

  // What a login is answered, from the identity with the address, its password and its accepted codes.
  lemma LoginReplies(env: Environment, calls: seq<Call>, kind: Kind, value: string, password: string,
                     loginAs: Option<Account>)
    requires IsRun(env, Init, calls)
    ensures var s := After(env, Init, calls);
            var reply, complete := Login(env, s, kind, value, password, loginAs), value != "" && password != "";
            && (reply == InvalidPayload <==> loginAs.None?)
            && (loginAs.Some? ==>
                  (reply == InvalidCredentials <==>
                   || !complete || !Registered(env, s, kind, Some(value), loginAs.value)
                   || exists id :: Holds(s.identities, id, kind, env.normalize(kind, value), loginAs.value) &&
                                   s.identities[id].active && !env.passwordMatches(password, s.identities[id].password)))
            && (loginAs.Some? && complete ==> forall id: Id ::
                  Holds(s.identities, id, kind, env.normalize(kind, value), loginAs.value) ==>
                    var matches := env.passwordMatches(password, s.identities[id].password);
                    && (reply == AccountInactive <==> !s.identities[id].active)
                    && (reply == NotVerified <==> s.identities[id].active && matches && (id, kind) !in s.accepted)
                    && (reply == LoggedIn(id) <==> s.identities[id].active && matches && (id, kind) in s.accepted))
            && (reply in {InvalidPayload, InvalidCredentials, AccountInactive, NotVerified} ||
                exists id: Id :: id in s.identities && reply == LoggedIn(id))
  {
    RunKeepsOk(env, calls);
    var s := After(env, Init, calls);
    if loginAs.Some? && value != "" && password != "" {
      var address := env.normalize(kind, value);
      TakenIffHeld(s, kind, address, loginAs.value);
      forall id: Id | Holds(s.identities, id, kind, address, loginAs.value)
        ensures FindIdentity(s.identities, kind, address, loginAs.value) == Some(id)
      {
        HolderIsFound(env, s, id, kind, address, loginAs.value);
      }
      if FindIdentity(s.identities, kind, address, loginAs.value).Some? {
        var id := FindIdentity(s.identities, kind, address, loginAs.value).value;
        assert Holds(s.identities, id, kind, address, loginAs.value);
        VerificationIsAllOrNone(env, calls, id, kind);
      }
    }
  }

  lemma HolderIsFound(env: Environment, s: State, id: Id, kind: Kind, address: string, account: Account)
    requires Ok(env, s) && Holds(s.identities, id, kind, address, account)
    ensures FindIdentity(s.identities, kind, address, account) == Some(id)
  {
    assert HasAddress(s.identities[id], kind, address, account);
    var found := FindIdentity(s.identities, kind, address, account).value;
    assert Address(s.identities[found], kind) == Address(s.identities[id], kind);
  }

  // A code is sent if and only if the identity has that address, of which no code was accepted yet; the code
  // replaces that of the pending row under the value normalised twice, or comes in a new one.
  lemma SendReplies(env: Environment, calls: seq<Call>, id: Id, kind: Kind, value: string, code: string, now: int)
    requires IsRun(env, Init, calls)
    ensures var s := After(env, Init, calls);
            var t, known := SendVerification(env, s, id, kind, value, code, now), id in s.identities;
            var own := known && Holds(s.identities, id, kind, env.normalize(kind, value), s.identities[id].account);
            && (t.reply == VerificationNotFound <==> !known)
            && (t.reply == ValueMismatch <==> known && !own)
            && (t.reply == AlreadyVerified <==> own && (id, kind) in s.accepted)
            && (t.reply == CodeSent <==> own && (id, kind) !in s.accepted)
            && t.state.identities == s.identities && t.state.accepted == s.accepted
            && (t.reply != CodeSent ==> t.state == s)
  {
    RunKeepsOk(env, calls);
    var s := After(env, Init, calls);
    if id in s.identities {
      VerificationIsAllOrNone(env, calls, id, kind);
      SendIsOk(env, s, id, kind, value, code, now);
    }
  }

  lemma CodeGoesIntoOneRow(env: Environment, s: State, id: Id, kind: Kind, value: string, code: string, now: int)
    returns (k: nat)
    requires SendVerification(env, s, id, kind, value, code, now).reply == CodeSent
    ensures var records := SendVerification(env, s, id, kind, value, code, now).state.records;
            var row := Record(id, kind, env.normalize(kind, env.normalize(kind, value)), None,
                              Some(Code(env.hash(code), now + 10 * 60 * 1000)));
            if exists j :: 0 <= j < |s.records| && s.records[j] == row.(code := s.records[j].code) then
              k < |s.records| && s.records[k] == row.(code := s.records[k].code) && records == s.records[k := row]
            else
              records == s.records + [row]
  {
    var normalized := env.normalize(kind, env.normalize(kind, value));
    var found := FindPending(s.records, id, kind, normalized);
    k := if found.Some? then found.value else 0;
    assert forall j :: 0 <= j < |s.records| ==>
      (PendingFor(s.records[j], id, kind, normalized) <==>
       s.records[j] == Record(id, kind, normalized, None, s.records[j].code));
  }

  // What a submitted code is answered, from the pending row of that address; only an accepted one changes
  // anything, and it verifies all pending rows of the identity and kind.
  lemma VerifyReplies(env: Environment, calls: seq<Call>, id: Id, kind: Kind, value: string, code: string, now: int)
    requires IsRun(env, Init, calls)
    ensures var s := After(env, Init, calls);
            var t := Verify(env, s, id, kind, value, code, now);
            && (t.reply == VerificationNotFound <==> forall k :: 0 <= k < |s.records| ==> !IsPending(env, s.records[k], id, kind, value))
            && (forall k :: 0 <= k < |s.records| && IsPending(env, s.records[k], id, kind, value) ==>
                  var sent := s.records[k].code;
                  && (t.reply == OtpExpired <==> sent.None?)
                  && (t.reply == Accepted <==> sent.Some? && now <= sent.value.expiresAt && env.hash(code) == sent.value.hash)
                  && (t.reply == OtpInvalid <==>
                      sent.Some? && (sent.value.expiresAt < now || env.hash(code) != sent.value.hash)))
            && t.state.identities == s.identities && |t.state.records| == |s.records|
            && (t.reply != Accepted ==> t.state == s)
            && (t.reply == Accepted ==>
                  && t.state.accepted == s.accepted + [(id, kind)]
                  && forall k :: 0 <= k < |s.records| ==>
                       t.state.records[k] == if s.records[k].identity == id && s.records[k].kind == kind && s.records[k].verifiedAt.None?
                                             then s.records[k].(verifiedAt := Some(now)) else s.records[k])
  {
    hide IsRun, After, Ok;
    var s := After(env, Init, calls);
    assert RecordsUnique(s.records) by {
      RunKeepsOk(env, calls);
      OkRecordsAreUnique(env, s);
    }
    var found := FindPending(s.records, id, kind, env.normalize(kind, value));
    forall k | 0 <= k < |s.records| && IsPending(env, s.records[k], id, kind, value) ensures found == Some(k) {
      assert PendingFor(s.records[k], id, kind, env.normalize(kind, value));
    }
    if found.Some? {
      assert IsPending(env, s.records[found.value], id, kind, value);
    }
  }

  lemma OkRecordsAreUnique(env: Environment, s: State)
    requires Ok(env, s)
    ensures RecordsUnique(s.records)
  {
  }

  predicate IsPending(env: Environment, r: Record, id: Id, kind: Kind, value: string) {
    r.identity == id && r.kind == kind && r.value == env.normalize(kind, value) && r.verifiedAt.None?
  }

  // The whole way works: whoever signs up with an address can have a code sent to it, verify it with
  // that code in time, and then log in with it and the password, in any spelling that normalises alike.
  lemma SignupLeadsToLogin(env: Environment, calls: seq<Call>, email: Option<string>, phone: Option<string>, stored: string,
                           account: Account, id: Id, kind: Kind, value: string, code: string, sent: int, again: string,
                           now: int, login: string, password: string)
    requires IsRun(env, Init, calls) && id !in After(env, Init, calls).identities
    requires Signup(env, After(env, Init, calls), email, phone, stored, account, id).reply.SignedUp?
    requires NormalizedIfGiven(env, kind, if kind.Email? then email else phone) == Some(env.normalize(kind, value))
    requires env.normalize(kind, again) == env.normalize(kind, env.normalize(kind, value)) && now <= sent + OTP_TTL
    requires env.normalize(kind, login) == env.normalize(kind, value) && login != ""
    requires password != "" && env.passwordMatches(password, stored)
    ensures var s1 := Signup(env, After(env, Init, calls), email, phone, stored, account, id).state;
            var sending := SendVerification(env, s1, id, kind, value, code, sent);
            var verifying := Verify(env, sending.state, id, kind, again, code, now);
            && sending.reply == CodeSent
            && verifying.reply == Accepted
            && Login(env, verifying.state, kind, login, password, Some(account)) == LoggedIn(id)
  {
    var s0 := After(env, Init, calls);
    RunKeepsOk(env, calls);
    SignupCreates(env, s0, email, phone, stored, account, id);
    var signup := SignupCall(email, phone, stored, account, id);
    var s1 := Signup(env, s0, email, phone, stored, account, id).state;
    RunExtends(env, calls, signup);
    CodeIsSent(env, calls + [signup], id, kind, value, code, sent);
    SentCodeVerifies(env, calls + [signup], id, kind, value, code, sent, again, code, now);
    VerifiedCanLogIn(env, calls + [signup], id, kind, value, code, sent, again, now, login, password);
  }

  lemma CodeIsSent(env: Environment, calls: seq<Call>, id: Id, kind: Kind, value: string, code: string, now: int)
    requires IsRun(env, Init, calls) && id in After(env, Init, calls).identities
    requires Address(After(env, Init, calls).identities[id], kind) == Some(env.normalize(kind, value))
    requires !IsVerified(After(env, Init, calls).records, id, kind)
    ensures SendVerification(env, After(env, Init, calls), id, kind, value, code, now).reply == CodeSent
  {
    RunKeepsOk(env, calls);
    SendIsOk(env, After(env, Init, calls), id, kind, value, code, now);
  }

  lemma VerifiedCanLogIn(env: Environment, calls: seq<Call>, id: Id, kind: Kind, value: string, code: string, sent: int,
                         again: string, now: int, login: string, password: string)
    requires IsRun(env, Init, calls) && id in After(env, Init, calls).identities
    requires var i := After(env, Init, calls).identities[id];
             i.active && Address(i, kind) == Some(env.normalize(kind, login)) && env.passwordMatches(password, i.password)
    requires login != "" && password != ""
    requires SendVerification(env, After(env, Init, calls), id, kind, value, code, sent).reply.CodeSent?
    requires Verify(env, SendVerification(env, After(env, Init, calls), id, kind, value, code, sent).state, id, kind, again,
                    code, now).reply.Accepted?
    ensures var s := After(env, Init, calls);
            var t := Verify(env, SendVerification(env, s, id, kind, value, code, sent).state, id, kind, again, code, now).state;
            Login(env, t, kind, login, password, Some(s.identities[id].account)) == LoggedIn(id)
  {
    var s := After(env, Init, calls);
    var send, verify := SendCall(id, kind, value, code, sent), VerifyCall(id, kind, again, code, now);
    RunExtends(env, calls, send);
    RunExtends(env, calls + [send], verify);
    var all := calls + [send] + [verify];
    var t := After(env, Init, all);
    assert t.accepted[|t.accepted| - 1] == (id, kind) && t.identities == s.identities;
    assert IsVerified(t.records, id, kind) by { VerificationIsAllOrNone(env, all, id, kind); }
    assert HasAddress(t.identities[id], kind, env.normalize(kind, login), s.identities[id].account);
    assert FindIdentity(t.identities, kind, env.normalize(kind, login), s.identities[id].account) == Some(id) by {
      RunKeepsOk(env, all);
      var other := FindIdentity(t.identities, kind, env.normalize(kind, login), s.identities[id].account).value;
      assert Address(t.identities[other], kind) == Address(t.identities[id], kind);
    }
  }
}
