/** The address service and its repository, changing the rows step by step. */
module AddressService {
  import opened Common
  import opened AddressBook

  class Service {
    var users: map<Id, User>
    var rows: map<Id, Address>

    ghost function Snapshot(): State
      reads this
    {
      State(users, rows)
    }

    constructor ()
      ensures Snapshot() == Init
    {
      users, rows := map[], map[];
    }

    // ----------------------------------------------------------------------------------------
    // Repository
    // ----------------------------------------------------------------------------------------

    method CreateRow(user: Id, details: Details, isDefault: bool, newId: Id)
      modifies this`rows
      ensures rows == old(rows)[newId := Address(user, details, isDefault, true)]
    {
      rows := rows[newId := Address(user, details, isDefault, true)];
    }

    method UnsetDefaultForUser(user: Id)
      modifies this`rows
      ensures rows == Unset(old(rows), user)
    {
      var before := rows;
      rows := map a | a in before ::
        if before[a].user == user && before[a].isActive then before[a].(isDefault := false) else before[a];
    }

    method UpdateRow(a: Id, details: Details, isDefault: Option<bool>)
      requires a in rows
      modifies this`rows
      ensures rows == old(rows)[a := old(rows)[a].(details := old(rows)[a].details + details,
                                                   isDefault := Or(isDefault, old(rows)[a].isDefault))]
    {
      var row := rows[a];
      if isDefault.Some? {
        row := row.(isDefault := isDefault.value);
      }
      rows := rows[a := row.(details := row.details + details)];
    }

    method SetAsDefault(a: Id, user: Id)
      requires a in rows
      modifies this`rows
      ensures var unset := Unset(old(rows), user); rows == unset[a := unset[a].(isDefault := true)]
    {
      UnsetDefaultForUser(user);
      rows := rows[a := rows[a].(isDefault := true)];
    }

    method SoftDelete(a: Id)
      requires a in rows
      modifies this`rows
      ensures rows == old(rows)[a := old(rows)[a].(isActive := false, isDefault := false)]
    {
      rows := rows[a := rows[a].(isActive := false, isDefault := false)];
    }

    method FindDefaultByUserId(user: Id) returns (found: Option<Id>)
      requires DefaultsUnique(rows)
      ensures found == FindDefault(rows, user)
    {
      if exists a :: a in rows && IsDefaultOf(rows, user, a) {
        var a :| a in rows && IsDefaultOf(rows, user, a);
        found := Some(a);
      } else {
        found := None;
      }
    }

    // ----------------------------------------------------------------------------------------
    // Requests
    // ----------------------------------------------------------------------------------------

    method EnsureUserOwnsResource(user: Id, identity: Id) returns (refused: Option<Reply>)
      ensures refused == UserRefused(users, Caller(Some(user), Some(identity)))
    {
      if user !in users {
        return Some(NotFound);
      }
      if users[user].authIdentity != identity {
        return Some(Forbidden);
      }
      if !users[user].active || users[user].deleted {
        return Some(Forbidden);
      }
      return None;
    }

    method EnsureUserOwnsAddress(user: Id, a: Id, identity: Id) returns (refused: Option<Reply>)
      ensures refused == AddressRefused(Snapshot(), Caller(Some(user), Some(identity)), Some(a), false)
      ensures refused.None? ==> a in rows
    {
      if a !in rows {
        return Some(NotFound);
      }
      if rows[a].user != user {
        return Some(Forbidden);
      }
      refused := EnsureUserOwnsResource(user, identity);
    }

    method EnsureUserCanAccessAddress(user: Id, a: Id, identity: Id) returns (refused: Option<Reply>)
      ensures refused == AddressRefused(Snapshot(), Caller(Some(user), Some(identity)), Some(a), true)
      ensures refused.None? ==> a in rows
    {
      refused := EnsureUserOwnsAddress(user, a, identity);
      if refused.None? && !rows[a].isActive {
        refused := Some(NotFound);
      }
    }

    method CreateAddress(caller: Caller, details: Details, isDefault: Option<bool>, newId: Id) returns (reply: Reply)
      modifies this`rows
      ensures Result(rows, reply) == Serve(old(Snapshot()), caller, CreateRequest(details, isDefault, newId))
    {
      if caller.user.None? || caller.identity.None? {
        return Missing;
      }
      var refused := EnsureUserOwnsResource(caller.user.value, caller.identity.value);
      if refused.Some? {
        return refused.value;
      }
      var makeDefault := if isDefault.Some? then isDefault.value else false;
      if makeDefault {
        UnsetDefaultForUser(caller.user.value);
      }
      CreateRow(caller.user.value, details, makeDefault, newId);
      return Saved(newId);
    }

    method SaveCurrentLocation(caller: Caller, details: Details, setAsDefault: Option<bool>, newId: Id)
      returns (reply: Reply)
      modifies this`rows
      ensures Result(rows, reply) == Serve(old(Snapshot()), caller, SaveLocationRequest(details, setAsDefault, newId))
    {
      if caller.user.None? || caller.identity.None? {
        return Missing;
      }
      var refused := EnsureUserOwnsResource(caller.user.value, caller.identity.value);
      if refused.Some? {
        return refused.value;
      }
      var makeDefault := if setAsDefault.Some? then setAsDefault.value else true;
      if makeDefault {
        UnsetDefaultForUser(caller.user.value);
      }
      CreateRow(caller.user.value, WithLabel(details), makeDefault, newId);
      return Saved(newId);
    }

    method UpdateAddress(caller: Caller, address: Option<Id>, details: Details, isDefault: Option<bool>)
      returns (reply: Reply)
      modifies this`rows
      ensures Result(rows, reply) == Serve(old(Snapshot()), caller, UpdateRequest(address, details, isDefault))
    {
      if caller.user.None? || address.None? || caller.identity.None? {
        return Missing;
      }
      var refused := EnsureUserCanAccessAddress(caller.user.value, address.value, caller.identity.value);
      if refused.Some? {
        return refused.value;
      }
      if isDefault.Some? && isDefault.value {
        UnsetDefaultForUser(caller.user.value);
      }
      if |details| == 0 && isDefault.None? {
        return NothingToUpdate;
      }
      UpdateRow(address.value, details, isDefault);
      return Saved(address.value);
    }

    method SetDefaultAddress(caller: Caller, address: Option<Id>) returns (reply: Reply)
      modifies this`rows
      ensures Result(rows, reply) == Serve(old(Snapshot()), caller, SetDefaultRequest(address))
    {
      if caller.user.None? || address.None? || caller.identity.None? {
        return Missing;
      }
      var refused := EnsureUserCanAccessAddress(caller.user.value, address.value, caller.identity.value);
      if refused.Some? {
        return refused.value;
      }
      SetAsDefault(address.value, caller.user.value);
      return Saved(address.value);
    }

    method DeleteAddress(caller: Caller, address: Option<Id>) returns (reply: Reply)
      modifies this`rows
      ensures Result(rows, reply) == Serve(old(Snapshot()), caller, DeleteRequest(address))
    {
      if caller.user.None? || address.None? || caller.identity.None? {
        return Missing;
      }
      var refused := EnsureUserOwnsAddress(caller.user.value, address.value, caller.identity.value);
      if refused.Some? {
        return refused.value;
      }
      SoftDelete(address.value);
      return Saved(address.value);
    }

    method GetDefaultAddress(caller: Caller) returns (reply: Reply)
      requires DefaultsUnique(rows)
      ensures reply == Serve(Snapshot(), caller, GetDefaultRequest).reply
    {
      if caller.user.None? || caller.identity.None? {
        return Missing;
      }
      var refused := EnsureUserOwnsResource(caller.user.value, caller.identity.value);
      if refused.Some? {
        return refused.value;
      }
      var found := FindDefaultByUserId(caller.user.value);
      if found.None? {
        return NotFound;
      }
      return Found(found.value);
    }
  }
}
