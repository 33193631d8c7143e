/** The addresses of users, of which each user has at most one default. One request at a time. */
module AddressBook {
  import opened Common

  type Id = nat

  datatype User = User(authIdentity: Id, active: bool, deleted: bool)

  datatype Column =
    | Label
    | AddressLine1
    | AddressLine2
    | City
    | Region
    | PostalCode
    | Country
    | Latitude
    | Longitude

  datatype Value = Text(text: string) | Coordinate(degrees: real)

  // The columns a request names; a column can be set to null.
  type Details = map<Column, Option<Value>>

  datatype Address = Address(user: Id, details: Details, isDefault: bool, isActive: bool)

  datatype State = State(users: map<Id, User>, rows: map<Id, Address>)

  const Init := State(map[], map[])

  datatype Reply =
    | Saved(id: Id)
    | Found(id: Id)
    | Missing          // a required id was not given
    | NotFound
    | Forbidden
    | NothingToUpdate

  // The caller: the user it acts for and the identity it is logged in as.
  datatype Caller = Caller(user: Option<Id>, identity: Option<Id>)

  // ------------------------------------------------------------------------------------------
  // Access
  // ------------------------------------------------------------------------------------------

  // Why the caller may not act for the user, if so.
  function UserRefused(users: map<Id, User>, caller: Caller): Option<Reply> {
    if caller.user.None? || caller.identity.None? then
      Some(Missing)
    else if caller.user.value !in users then
      Some(NotFound)
    else if users[caller.user.value].authIdentity != caller.identity.value then
      Some(Forbidden)
    else if !users[caller.user.value].active || users[caller.user.value].deleted then
      Some(Forbidden)
    else
      None
  }

  // Why the caller may not touch the address, if so; a deleted one only if it has to be there still.
  function AddressRefused(s: State, caller: Caller, address: Option<Id>, mustBeActive: bool): Option<Reply> {
    if caller.user.None? || address.None? || caller.identity.None? then
      Some(Missing)
    else if address.value !in s.rows then
      Some(NotFound)
    else if s.rows[address.value].user != caller.user.value then
      Some(Forbidden)
    else if caller.user.value !in s.users then
      Some(NotFound)
    else if s.users[caller.user.value].authIdentity != caller.identity.value then
      Some(Forbidden)
    else if !s.users[caller.user.value].active || s.users[caller.user.value].deleted then
      Some(Forbidden)
    else if mustBeActive && !s.rows[address.value].isActive then
      Some(NotFound)
    else
      None
  }

  // ------------------------------------------------------------------------------------------
  // Requests
  // ------------------------------------------------------------------------------------------

  datatype Result = Result(rows: map<Id, Address>, reply: Reply)

  function Unset(rows: map<Id, Address>, user: Id): map<Id, Address> {
    map a | a in rows :: if rows[a].user == user && rows[a].isActive then rows[a].(isDefault := false) else rows[a]
  }

  function Create(s: State, caller: Caller, details: Details, isDefault: bool, newId: Id): Result {
    var refused := UserRefused(s.users, caller);
    if refused.Some? then
      Result(s.rows, refused.value)
    else
      var user := caller.user.value;
      var rows := if isDefault then Unset(s.rows, user) else s.rows;
      Result(rows[newId := Address(user, details, isDefault, true)], Saved(newId))
  }

  function Update(s: State, caller: Caller, address: Option<Id>, details: Details, isDefault: Option<bool>): Result {
    var refused := AddressRefused(s, caller, address, true);
    if refused.Some? then
      Result(s.rows, refused.value)
    else
      var rows := if isDefault == Some(true) then Unset(s.rows, caller.user.value) else s.rows;
      if |details| == 0 && isDefault.None? then
        Result(rows, NothingToUpdate)
      else
        var row := rows[address.value];
        var updated := row.(details := row.details + details,
                            isDefault := if isDefault.Some? then isDefault.value else row.isDefault);
        Result(rows[address.value := updated], Saved(address.value))
  }

  function SetDefault(s: State, caller: Caller, address: Option<Id>): Result {
    var refused := AddressRefused(s, caller, address, true);
    if refused.Some? then
      Result(s.rows, refused.value)
    else
      var rows := Unset(s.rows, caller.user.value);
      Result(rows[address.value := rows[address.value].(isDefault := true)], Saved(address.value))
  }

  function Delete(s: State, caller: Caller, address: Option<Id>): Result {
    var refused := AddressRefused(s, caller, address, false);
    if refused.Some? then
      Result(s.rows, refused.value)
    else
      var row := s.rows[address.value];
      Result(s.rows[address.value := row.(isActive := false, isDefault := false)], Saved(address.value))
  }

  predicate IsDefaultOf(rows: map<Id, Address>, user: Id, a: Id) {
    a in rows && rows[a].user == user && rows[a].isDefault && rows[a].isActive
  }

  ghost function FindDefault(rows: map<Id, Address>, user: Id): (found: Option<Id>)
    ensures found.Some? ==> IsDefaultOf(rows, user, found.value)
    ensures found.None? ==> forall a :: !IsDefaultOf(rows, user, a)
  {
    if exists a :: IsDefaultOf(rows, user, a) then
      var a :| IsDefaultOf(rows, user, a);
      Some(a)
    else
      None
  }

  ghost function GetDefault(s: State, caller: Caller): Reply {
    var refused := UserRefused(s.users, caller);
    if refused.Some? then
      refused.value
    else
      match FindDefault(s.rows, caller.user.value)
      case None => NotFound
      case Some(a) => Found(a)
  }

  // ------------------------------------------------------------------------------------------
  // Runs
  // ------------------------------------------------------------------------------------------

  datatype Request =
    | CreateRequest(details: Details, isDefault: Option<bool>, newId: Id)
    | SaveLocationRequest(details: Details, setAsDefault: Option<bool>, newId: Id)
    | UpdateRequest(address: Option<Id>, details: Details, isDefault: Option<bool>)
    | SetDefaultRequest(address: Option<Id>)
    | DeleteRequest(address: Option<Id>)
    | GetDefaultRequest

  // A request by a caller, or the user service changing an account.
  datatype Call = Call(caller: Caller, request: Request) | SetUser(id: Id, user: User)

  function Or(choice: Option<bool>, otherwise: bool): bool {
    if choice.Some? then choice.value else otherwise
  }

  ghost function Serve(s: State, caller: Caller, request: Request): Result {
    match request
    case CreateRequest(details, isDefault, newId) => Create(s, caller, details, Or(isDefault, false), newId)
    case SaveLocationRequest(details, setAsDefault, newId) =>
      Create(s, caller, WithLabel(details), Or(setAsDefault, true), newId)
    case UpdateRequest(address, details, isDefault) => Update(s, caller, address, details, isDefault)
    case SetDefaultRequest(address) => SetDefault(s, caller, address)
    case DeleteRequest(address) => Delete(s, caller, address)
    case GetDefaultRequest => Result(s.rows, GetDefault(s, caller))
  }

  function WithLabel(details: Details): Details {
    if Label in details && details[Label].Some? then details else details[Label := Some(Text("Current Location"))]
  }

  ghost predicate Enabled(s: State, c: Call) {
    c.Call? ==> ((c.request.CreateRequest? || c.request.SaveLocationRequest?) ==> c.request.newId !in s.rows)
  }

  ghost function Step(s: State, c: Call): State {
    match c
    case Call(caller, request) => s.(rows := Serve(s, caller, request).rows)
    case SetUser(id, user) => s.(users := s.users[id := user])
  }

  ghost predicate IsRun(calls: seq<Call>)
    decreases calls, 0
  {
    calls == [] || (IsRun(calls[..|calls| - 1]) && Enabled(After(calls[..|calls| - 1]), calls[|calls| - 1]))
  }

  ghost function After(calls: seq<Call>): State
    requires IsRun(calls)
    decreases calls, 1
  {
    if calls == [] then Init else Step(After(calls[..|calls| - 1]), calls[|calls| - 1])
  }

  // ------------------------------------------------------------------------------------------
  // One request
  // ------------------------------------------------------------------------------------------

  // No request touches the address of another user, and none but a saving one touches any.
  lemma OnlyOwnRowsChange(s: State, caller: Caller, request: Request)
    requires Enabled(s, Call(caller, request))
    ensures var t := Serve(s, caller, request);
            && (!t.reply.Saved? ==> t.rows == s.rows)
            && (forall a :: a in s.rows ==> a in t.rows)
            && (forall a :: a in s.rows && Some(s.rows[a].user) != caller.user ==> t.rows[a] == s.rows[a])
            && (t.reply.Saved? ==> UserRefused(s.users, caller).None?)
  {
  }

  function ColumnOf(row: Address, column: Column): Option<Value> {
    if column in row.details then row.details[column] else None
  }

  // A saving request changes the columns it names of the address it names, and no others; apart from
  // that only which address is the default can change, and a deletion only marks the address.
  lemma OnlyNamedColumnsChange(s: State, caller: Caller, request: Request, a: Id, column: Column)
    requires Enabled(s, Call(caller, request)) && a in s.rows
    ensures var t := Serve(s, caller, request);
            && a in t.rows && t.rows[a].user == s.rows[a].user
            && ColumnOf(t.rows[a], column) ==
                 (if t.reply.Saved? && request.UpdateRequest? && request.address == Some(a) && column in request.details
                  then request.details[column]
                  else ColumnOf(s.rows[a], column))
            && t.rows[a].isActive == (s.rows[a].isActive && !(t.reply.Saved? && request == DeleteRequest(Some(a))))
  {
  }

  // A new address belongs to the caller's user and holds what was asked for; a saved location without a
  // label is called the current one.
  lemma NewAddressIsAsAsked(s: State, caller: Caller, request: Request, column: Column)
    requires request.CreateRequest? || request.SaveLocationRequest?
    requires Serve(s, caller, request).reply.Saved?
    ensures var t := Serve(s, caller, request);
            && t.reply == Saved(request.newId) && request.newId in t.rows
            && caller.user == Some(t.rows[request.newId].user) && t.rows[request.newId].isActive
            && ColumnOf(t.rows[request.newId], column) ==
                 (var asked := if column in request.details then request.details[column] else None;
                  if request.SaveLocationRequest? && column == Label && asked.None? then
                    Some(Text("Current Location"))
                  else
                    asked)
  {
  }

  // ------------------------------------------------------------------------------------------
  // Who is answered what
  // ------------------------------------------------------------------------------------------

  // The user's own caller, and the account is neither inactive nor deleted.
  predicate MayAct(users: map<Id, User>, user: Id, identity: Id) {
    user in users && users[user].authIdentity == identity && users[user].active && !users[user].deleted
  }

  // A new address is saved if and only if the caller may act for the user.
  lemma NewAddressReplies(s: State, caller: Caller, request: Request)
    requires request.CreateRequest? || request.SaveLocationRequest?
    ensures var reply, complete := Serve(s, caller, request).reply, caller.user.Some? && caller.identity.Some?;
            && (reply == Missing <==> !complete)
            && (reply == NotFound <==> complete && caller.user.value !in s.users)
            && (reply == Forbidden <==> complete && caller.user.value in s.users &&
                                        !MayAct(s.users, caller.user.value, caller.identity.value))
            && (reply == Saved(request.newId) <==> complete && MayAct(s.users, caller.user.value, caller.identity.value))
  {
  }

  predicate IsActiveDefault(row: Address, user: Id) {
    row.user == user && row.isActive && row.isDefault
  }

  // The default is looked up if and only if the caller may act for the user.
  lemma DefaultReplies(s: State, caller: Caller)
    ensures var reply, complete := GetDefault(s, caller), caller.user.Some? && caller.identity.Some?;
            && (reply == Missing <==> !complete)
            && (complete ==>
                  var user, may := caller.user.value, MayAct(s.users, caller.user.value, caller.identity.value);
                  var some := exists a :: a in s.rows && IsActiveDefault(s.rows[a], user);
                  && (reply == Forbidden <==> user in s.users && !may)
                  && (reply == NotFound <==> user !in s.users || (may && !some))
                  && (reply.Found? <==> may && some)
                  && (reply.Found? ==> reply.id in s.rows && IsActiveDefault(s.rows[reply.id], user)))
  {
    if caller.user.Some? {
      var user := caller.user.value;
      assert forall a :: IsDefaultOf(s.rows, user, a) ==> IsActiveDefault(s.rows[a], user);
      assert forall a :: a in s.rows && IsActiveDefault(s.rows[a], user) ==> IsDefaultOf(s.rows, user, a);
    }
  }

  predicate NamesAddress(request: Request) {
    request.UpdateRequest? || request.SetDefaultRequest? || request.DeleteRequest?
  }

  // An existing address is changed if and only if it is the user's, the caller may act for the user, and it
  // has not been deleted, except by deleting it again; an update has to name something.
  lemma AddressReplies(s: State, caller: Caller, request: Request)
    requires NamesAddress(request)
    ensures var reply, complete := Serve(s, caller, request).reply,
                                   caller.user.Some? && caller.identity.Some? && request.address.Some?;
            && (reply == Missing <==> !complete)
            && (complete ==>
                  var user, a := caller.user.value, request.address.value;
                  var own, may := a in s.rows && s.rows[a].user == user, MayAct(s.users, user, caller.identity.value);
                  var there := own && may && (s.rows[a].isActive || request.DeleteRequest?);
                  var empty := request.UpdateRequest? && request.details == map[] && request.isDefault.None?;
                  && (reply == Forbidden <==> a in s.rows && (!own || (user in s.users && !may)))
                  && (reply == NotFound <==> a !in s.rows || (own && user !in s.users) || (own && may && !there))
                  && (reply == NothingToUpdate <==> there && empty)
                  && (reply == Saved(a) <==> there && !empty))
  {
  }

  // ------------------------------------------------------------------------------------------
  // Defaults
  // ------------------------------------------------------------------------------------------

  // The address a saving request makes the default, and the one it stops from being it.
  function Makes(request: Request): Option<Id> {
    match request
    case CreateRequest(_, isDefault, newId) => if isDefault == Some(true) then Some(newId) else None
    case SaveLocationRequest(_, setAsDefault, newId) => if setAsDefault != Some(false) then Some(newId) else None
    case UpdateRequest(address, _, isDefault) => if isDefault == Some(true) then address else None
    case SetDefaultRequest(address) => address
    case _ => None
  }

  function Clears(request: Request): Option<Id> {
    match request
    case UpdateRequest(address, _, isDefault) => if isDefault == Some(false) then address else None
    case DeleteRequest(address) => address
    case _ => None
  }

  ghost function NextDefault(s: State, c: Call, user: Id, last: Option<Id>): Option<Id> {
    if c.SetUser? || c.caller.user != Some(user) || !Serve(s, c.caller, c.request).reply.Saved? then
      last
    else if Makes(c.request).Some? then
      Makes(c.request)
    else if Clears(c.request) == last then
      None
    else
      last
  }

  // The history of a user's default: the address last made default and not since cleared or deleted.
  ghost function LastDefault(calls: seq<Call>, user: Id): Option<Id>
    requires IsRun(calls)
  {
    if calls == [] then
      None
    else
      var n := |calls| - 1;
      NextDefault(After(calls[..n]), calls[n], user, LastDefault(calls[..n], user))
  }

  ghost predicate DefaultIs(rows: map<Id, Address>, user: Id, default: Option<Id>) {
    forall a: Id :: IsDefaultOf(rows, user, a) <==> default == Some(a)
  }

  lemma UnsetClears(rows: map<Id, Address>, user: Id, other: Id, a: Id)
    ensures IsDefaultOf(Unset(rows, user), other, a) <==> other != user && IsDefaultOf(rows, other, a)
  {
  }

  lemma CreateMovesDefault(s: State, caller: Caller, details: Details, isDefault: bool, newId: Id, user: Id,
                           last: Option<Id>)
    requires newId !in s.rows && DefaultIs(s.rows, user, last)
    ensures var t := Create(s, caller, details, isDefault, newId);
            DefaultIs(t.rows, user, if t.reply.Saved? && isDefault && caller.user == Some(user) then Some(newId) else last)
  {
    var t := Create(s, caller, details, isDefault, newId);
    forall a: Id ensures IsDefaultOf(t.rows, user, a) <==>
                     (if t.reply.Saved? && isDefault && caller.user == Some(user) then Some(newId) else last) == Some(a)
    {
      if caller.user.Some? {
        UnsetClears(s.rows, caller.user.value, user, a);
      }
      assert last == Some(a) ==> a in s.rows;
    }
  }

  lemma UpdateMovesDefault(s: State, caller: Caller, address: Option<Id>, details: Details, isDefault: Option<bool>,
                           user: Id, last: Option<Id>)
    requires DefaultIs(s.rows, user, last)
    ensures var t := Update(s, caller, address, details, isDefault);
            DefaultIs(t.rows, user,
                      if !t.reply.Saved? || caller.user != Some(user) || isDefault.None? then last
                      else if isDefault.value then address
                      else if address == last then None
                      else last)
  {
    var t := Update(s, caller, address, details, isDefault);
    if t.reply.Saved? {
      forall a: Id ensures IsDefaultOf(t.rows, user, a) <==>
                       (if caller.user != Some(user) || isDefault.None? then last
                        else if isDefault.value then address
                        else if address == last then None
                        else last) == Some(a)
      {
        UnsetClears(s.rows, caller.user.value, user, a);
        assert last == Some(a) <==> IsDefaultOf(s.rows, user, a);
      }
    }
  }

  lemma SetDefaultMovesDefault(s: State, caller: Caller, address: Option<Id>, user: Id, last: Option<Id>)
    requires DefaultIs(s.rows, user, last)
    ensures var t := SetDefault(s, caller, address);
            DefaultIs(t.rows, user, if t.reply.Saved? && caller.user == Some(user) then address else last)
  {
    var t := SetDefault(s, caller, address);
    if t.reply.Saved? {
      forall a: Id ensures IsDefaultOf(t.rows, user, a) <==> (if caller.user == Some(user) then address else last) == Some(a) {
        UnsetClears(s.rows, caller.user.value, user, a);
        assert last == Some(a) <==> IsDefaultOf(s.rows, user, a);
      }
    }
  }

  lemma DeleteMovesDefault(s: State, caller: Caller, address: Option<Id>, user: Id, last: Option<Id>)
    requires DefaultIs(s.rows, user, last)
    ensures var t := Delete(s, caller, address);
            DefaultIs(t.rows, user,
                      if t.reply.Saved? && caller.user == Some(user) && address == last then None else last)
  {
    var t := Delete(s, caller, address);
    if t.reply.Saved? {
      forall a: Id ensures IsDefaultOf(t.rows, user, a) <==>
                       (if caller.user == Some(user) && address == last then None else last) == Some(a)
      {
        assert last == Some(a) <==> IsDefaultOf(s.rows, user, a);
      }
    }
  }

  lemma StepMovesDefault(s: State, c: Call, user: Id, last: Option<Id>)
    requires Enabled(s, c) && DefaultIs(s.rows, user, last)
    ensures DefaultIs(Step(s, c).rows, user, NextDefault(s, c, user, last))
  {
    match c
    case SetUser(_, _) =>
    case Call(caller, CreateRequest(details, isDefault, newId)) =>
      CreateMovesDefault(s, caller, details, Or(isDefault, false), newId, user, last);
    case Call(caller, SaveLocationRequest(details, setAsDefault, newId)) =>
      CreateMovesDefault(s, caller, WithLabel(details), Or(setAsDefault, true), newId, user, last);
    case Call(caller, UpdateRequest(address, details, isDefault)) =>
      UpdateMovesDefault(s, caller, address, details, isDefault, user, last);
    case Call(caller, SetDefaultRequest(address)) => SetDefaultMovesDefault(s, caller, address, user, last);
    case Call(caller, DeleteRequest(address)) => DeleteMovesDefault(s, caller, address, user, last);
    case Call(caller, GetDefaultRequest) =>
  }

  lemma {:induction false} DefaultIsLastDefault(calls: seq<Call>, user: Id)
    requires IsRun(calls)
    ensures DefaultIs(After(calls).rows, user, LastDefault(calls, user))
  {
    if calls == [] {
    } else {
      DefaultIsLastDefault(calls[..|calls| - 1], user);
      StepMovesDefault(After(calls[..|calls| - 1]), calls[|calls| - 1], user, LastDefault(calls[..|calls| - 1], user));
    }
  }

  ghost predicate DefaultsUnique(rows: map<Id, Address>) {
    forall user: Id, a: Id, b: Id :: IsDefaultOf(rows, user, a) && IsDefaultOf(rows, user, b) ==> a == b
  }

  // No user has two defaults.
  lemma AtMostOneDefault(calls: seq<Call>)
    requires IsRun(calls)
    ensures DefaultsUnique(After(calls).rows)
  {
    forall user: Id, a: Id, b: Id | IsDefaultOf(After(calls).rows, user, a) && IsDefaultOf(After(calls).rows, user, b)
      ensures a == b
    {
      DefaultIsLastDefault(calls, user);
    }
  }

  // A caller that may ask is told the default last made and not since cleared or deleted, and told that
  // there is none only if there is none.
  lemma DefaultReturnedIsLastDefault(calls: seq<Call>, caller: Caller)
    requires IsRun(calls) && UserRefused(After(calls).users, caller).None?
    ensures var last := LastDefault(calls, caller.user.value);
            GetDefault(After(calls), caller) == if last.Some? then Found(last.value) else NotFound
  {
    DefaultIsLastDefault(calls, caller.user.value);
  }

  ghost predicate DeletedAreNoDefaults(rows: map<Id, Address>) {
    forall a :: a in rows && rows[a].isDefault ==> rows[a].isActive
  }

  lemma StepKeepsDeleted(s: State, c: Call)
    requires Enabled(s, c) && DeletedAreNoDefaults(s.rows)
    ensures DeletedAreNoDefaults(Step(s, c).rows)
  {
  }

  // A deleted address is never marked as default.
  lemma {:induction false} DeletedIsNeverDefault(calls: seq<Call>)
    requires IsRun(calls)
    ensures DeletedAreNoDefaults(After(calls).rows)
  {
    if calls == [] {
    } else {
      DeletedIsNeverDefault(calls[..|calls| - 1]);
      StepKeepsDeleted(After(calls[..|calls| - 1]), calls[|calls| - 1]);
    }
  }

  lemma StepKeepsForever(s: State, c: Call, a: Id)
    requires Enabled(s, c) && a in s.rows
    ensures a in Step(s, c).rows && Step(s, c).rows[a].user == s.rows[a].user
    ensures !s.rows[a].isActive ==> !Step(s, c).rows[a].isActive && Step(s, c).rows[a].details == s.rows[a].details
  {
  }

  // No address changes its owner, and a deleted one stays deleted and keeps its contents.
  lemma {:induction false} DeletionIsFinal(calls: seq<Call>, more: nat, a: Id)
    requires IsRun(calls) && more <= |calls| && IsRun(calls[..more]) && a in After(calls[..more]).rows
    ensures a in After(calls).rows && After(calls).rows[a].user == After(calls[..more]).rows[a].user
    ensures !After(calls[..more]).rows[a].isActive ==>
              !After(calls).rows[a].isActive && After(calls).rows[a].details == After(calls[..more]).rows[a].details
  {
    if more == |calls| {
      assert calls[..more] == calls;
    } else {
      var front := calls[..|calls| - 1];
      assert front[..more] == calls[..more];
      DeletionIsFinal(front, more, a);
      StepKeepsForever(After(front), calls[|calls| - 1], a);
    }
  }
}
