/** The authentication service over its two tables. */
module AuthService {
  import opened Common
  import opened AuthVerification

  class Service {
    const env: Environment
    var identities: map<Id, Identity>
    var records: seq<Record>
    ghost var accepted: seq<(Id, Kind)>

    ghost function Snapshot(): State
      reads this
    {
      State(identities, records, accepted)
    }

    constructor (env: Environment)
      ensures this.env == env && Snapshot() == Init
    {
      this.env := env;
      identities, records, accepted := map[], [], [];
    }

    // ----------------------------------------------------------------------------------------
    // Repository
    // ----------------------------------------------------------------------------------------

    method ExistsByAddress(kind: Kind, value: string, account: Account) returns (taken: bool)
      ensures taken == AddressTaken(identities, kind, env.normalize(kind, value), account)
    {
      var normalized := env.normalize(kind, value);
      taken := exists id :: id in identities && HasAddress(identities[id], kind, normalized, account);
    }

    method FindByAddress(kind: Kind, value: string, account: Account) returns (found: Option<Id>)
      requires IdentitiesUnique(identities)
      ensures found == FindIdentity(identities, kind, env.normalize(kind, value), account)
    {
      var normalized := env.normalize(kind, value);
      if exists id :: id in identities && HasAddress(identities[id], kind, normalized, account) {
        var id :| id in identities && HasAddress(identities[id], kind, normalized, account);
        found := Some(id);
        assert found == FindIdentity(identities, kind, normalized, account) by {
          var other := FindIdentity(identities, kind, normalized, account).value;
          assert Address(identities[id], kind) == Address(identities[other], kind);
        }
      } else {
        found := None;
      }
    }

    method CreateVerification(id: Id, kind: Kind, value: string) returns (ok: bool)
      modifies this`records
      ensures var r := Record(id, kind, value, None, None);
              ok == !RecordTaken(old(records), r) && records == if ok then old(records) + [r] else old(records)
    {
      var r := Record(id, kind, value, None, None);
      ok := !RecordTaken(records, r);
      if ok {
        records := records + [r];
      }
    }

    method UpsertVerificationOtp(id: Id, kind: Kind, value: string, hash: string, expiresAt: int)
      returns (reply: Reply)
      modifies this`records
      ensures Result(Snapshot(), reply) == Upsert(env, old(Snapshot()), id, kind, value, Code(hash, expiresAt))
    {
      var normalized := env.normalize(kind, value);
      var existing := FindPending(records, id, kind, normalized);
      if existing.Some? {
        var k := existing.value;
        records := records[k := records[k].(code := Some(Code(hash, expiresAt)))];
        return CodeSent;
      }
      var r := Record(id, kind, normalized, None, Some(Code(hash, expiresAt)));
      if RecordTaken(records, r) {
        return UniqueViolation;
      }
      records := records + [r];
      return CodeSent;
    }

    method MarkRecordsVerified(id: Id, kind: Kind, now: int)
      modifies this`records
      ensures records == MarkVerified(old(records), id, kind, now)
    {
      var rows := records;
      records := seq(|rows|, k requires 0 <= k < |rows| =>
        if IsOf(rows[k], id, kind) && rows[k].verifiedAt.None? then rows[k].(verifiedAt := Some(now)) else rows[k]);
    }

    // ----------------------------------------------------------------------------------------
    // Requests
    // ----------------------------------------------------------------------------------------

    // newId and passwordHash are what the database and the password hash come up with.
    method SignUp(email: Option<string>, phone: Option<string>, passwordHash: string, account: Account, newId: Id)
      returns (reply: Reply)
      modifies this`identities, this`records
      ensures Result(Snapshot(), reply) == Signup(env, old(Snapshot()), email, phone, passwordHash, account, newId)
    {
      if !Given(email) && !Given(phone) {
        return InvalidPayload;
      }
      if Given(email) {
        var taken := ExistsByAddress(Email, email.value, account);
        if taken {
          return EmailExists;
        }
      }
      if Given(phone) {
        var taken := ExistsByAddress(Phone, phone.value, account);
        if taken {
          return PhoneExists;
        }
      }
      identities := identities[newId := Identity(NormalizedIfGiven(env, Email, email), NormalizedIfGiven(env, Phone, phone),
                                                 passwordHash, account, true)];
      if Given(email) {
        var ok := CreateVerification(newId, Email, email.value);
        if !ok {
          return UniqueViolation;
        }
      }
      if Given(phone) {
        var ok := CreateVerification(newId, Phone, phone.value);
        if !ok {
          return UniqueViolation;
        }
      }
      return SignedUp(newId);
    }

    method SendCode(id: Id, kind: Kind, value: string, code: string, now: int) returns (reply: Reply)
      modifies this`records
      ensures Result(Snapshot(), reply) == SendVerification(env, old(Snapshot()), id, kind, value, code, now)
    {
      if id !in identities {
        return VerificationNotFound;
      }
      var normalized := env.normalize(kind, value);
      if Address(identities[id], kind) != Some(normalized) {
        return ValueMismatch;
      }
      if IsVerified(records, id, kind) {
        return AlreadyVerified;
      }
      reply := UpsertVerificationOtp(id, kind, normalized, env.hash(code), now + OTP_TTL);
    }

    method VerifyCode(id: Id, kind: Kind, value: string, code: string, now: int) returns (reply: Reply)
      modifies this`records, this`accepted
      ensures Result(Snapshot(), reply) == Verify(env, old(Snapshot()), id, kind, value, code, now)
    {
      var pending := FindPending(records, id, kind, env.normalize(kind, value));
      if pending.None? {
        return VerificationNotFound;
      }
      var record := records[pending.value];
      if record.code.None? {
        return OtpExpired;
      }
      if record.code.value.expiresAt < now || env.hash(code) != record.code.value.hash {
        return OtpInvalid;
      }
      MarkRecordsVerified(record.identity, kind, now);
      accepted := accepted + [(id, kind)];
      return Accepted;
    }

    method LogIn(kind: Kind, value: string, password: string, loginAs: Option<Account>) returns (reply: Reply)
      requires IdentitiesUnique(identities)
      ensures reply == Login(env, Snapshot(), kind, value, password, loginAs)
    {
      if loginAs.None? {
        return InvalidPayload;
      }
      if value == "" || password == "" {
        return InvalidCredentials;
      }
      var found := FindByAddress(kind, value, loginAs.value);
      if found.None? {
        return InvalidCredentials;
      }
      var identity := identities[found.value];
      if !identity.active {
        return AccountInactive;
      }
      if !env.passwordMatches(password, identity.password) {
        return InvalidCredentials;
      }
      if !IsVerified(records, found.value, kind) {
        return NotVerified;
      }
      return LoggedIn(found.value);
    }
  }
}
