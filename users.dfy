/**
 * The users controller: a signed-in user may see and update only the own
 * record, and an update may write only the `name` column; every other
 * submitted attribute is dropped by the allow-list.
 */
module Users {
  import opened Wrappers
  import opened Schema
  import opened Params

  const NameKey: string := "name"

  /** `user_params`: require the `user` sub-hash, then permit only `name`. */
  function UserParams(form: Option<Params>): (r: Result<Params, ParamError>)
    ensures r.Failure? <==> Blank(form)
    ensures r.Success? ==> r.value.Keys <= {NameKey}
    ensures r.Success? ==> (NameKey in r.value <==> NameKey in form.value)
    ensures r.Success? && NameKey in r.value ==> r.value[NameKey] == form.value[NameKey]
  {
    match Require(form)
    case Failure(e) => Failure(e)
    case Success(p) => Success(Permit(p, {NameKey}))
  }

  /** `assign_attributes` over the user columns: every submitted column takes the submitted value. */
  function AssignUser(d: UserDraft, p: Params): (e: UserDraft)
    ensures e.name == if "name" in p then AsString(p["name"]) else d.name
    ensures e.email == if "email" in p then AsString(p["email"]) else d.email
    ensures e.encryptedPassword == if "encrypted_password" in p then AsString(p["encrypted_password"]) else d.encryptedPassword
    ensures e.resetPasswordToken == if "reset_password_token" in p then AsString(p["reset_password_token"]) else d.resetPasswordToken
    ensures e.signInCount == if "sign_in_count" in p then AsInt(p["sign_in_count"]) else d.signInCount
  {
    UserDraft(
      if "name" in p then AsString(p["name"]) else d.name,
      if "email" in p then AsString(p["email"]) else d.email,
      if "encrypted_password" in p then AsString(p["encrypted_password"]) else d.encryptedPassword,
      if "reset_password_token" in p then AsString(p["reset_password_token"]) else d.resetPasswordToken,
      if "sign_in_count" in p then AsInt(p["sign_in_count"]) else d.signInCount)
  }

  /** `@user.update(p)`: the saved record, or None when a NOT NULL column is nil or the model's validations refuse it. */
  function UpdateUser(u: User, p: Params, valid: bool): (r: Option<User>)
    ensures r.Some? ==> UserDraftOf(r.value) == AssignUser(UserDraftOf(u), p)
    ensures r.Some? <==> valid && UserRow(AssignUser(UserDraftOf(u), p)).Success?
  {
    var row := UserRow(AssignUser(UserDraftOf(u), p));
    if valid && row.Success? then Some(row.value) else None
  }

  datatype UserResponse = RedirectToSignIn | BadRequest | ShowUser(user: User) | Ok | Unprocessable

  datatype UserOutcome = UserOutcome(response: UserResponse, users: map<Id, User>)

  /** A request: the `id` in the route (never consulted) and the `user` sub-hash. */
  datatype UserRequest = UserRequest(routeId: Option<Id>, form: Option<Params>)

  /** The session: the signed-in user's id, which names a stored row. */
  predicate SessionOk(current: Option<Id>, users: map<Id, User>) {
    current.Some? ==> current.value in users
  }

  /** `show`: authenticate, then the signed-in user's own record. */
  function ShowStep(current: Option<Id>, users: map<Id, User>, req: UserRequest): (r: UserResponse)
    requires SessionOk(current, users)
    ensures r == RedirectToSignIn <==> current.None?
    ensures r != RedirectToSignIn ==> r == ShowUser(users[current.value])
  {
    if current.None? then RedirectToSignIn else ShowUser(users[current.value])
  }

  /** `update`: authenticate, then update the signed-in user's record with the permitted parameters. */
  function UpdateStep(current: Option<Id>, users: map<Id, User>, req: UserRequest, valid: bool): (o: UserOutcome)
    requires SessionOk(current, users)
    ensures o.users.Keys == users.Keys
    ensures o.response != Ok ==> o.users == users
    ensures o.response == RedirectToSignIn <==> current.None?
    ensures forall k :: k in users && Some(k) != current ==> o.users[k] == users[k]
  {
    if current.None? then UserOutcome(RedirectToSignIn, users)
    else match UserParams(req.form)
      case Failure(_) => UserOutcome(BadRequest, users)
      case Success(p) =>
        match UpdateUser(users[current.value], p, valid)
        case Some(u) => UserOutcome(Ok, users[current.value := u])
        case None => UserOutcome(Unprocessable, users)
  }

  // ---------------------------------------------------------------- properties

  /** Both actions send an anonymous request to sign in and change nothing. */
  lemma AnonymousGoesToSignIn(users: map<Id, User>, req: UserRequest, valid: bool)
    ensures ShowStep(None, users, req) == RedirectToSignIn
    ensures UpdateStep(None, users, req, valid) == UserOutcome(RedirectToSignIn, users)
  {
  }

  /** The route id is never consulted: the request always acts on the signed-in user. */
  lemma RouteIdIgnored(current: Option<Id>, users: map<Id, User>, req: UserRequest, other: Option<Id>, valid: bool)
    requires SessionOk(current, users)
    ensures ShowStep(current, users, req.(routeId := other)) == ShowStep(current, users, req)
    ensures UpdateStep(current, users, req.(routeId := other), valid) == UpdateStep(current, users, req, valid)
  {
  }

  /** An update changes at most the signed-in user's `name`: every other column and every other user stay as they were. */
  lemma OnlyOwnNameChanges(current: Option<Id>, users: map<Id, User>, req: UserRequest, valid: bool)
    requires SessionOk(current, users)
    ensures var o := UpdateStep(current, users, req, valid);
      o.users.Keys == users.Keys &&
      (forall k :: k in users && Some(k) != current ==> o.users[k] == users[k]) &&
      (current.Some? ==> o.users[current.value] == users[current.value].(name := o.users[current.value].name))
  {
    var o := UpdateStep(current, users, req, valid);
    if current.Some? && !Blank(req.form) {
      var id := current.value;
      var p := UserParams(req.form).value;
      var d := AssignUser(UserDraftOf(users[id]), p);
      assert "email" !in p && "encrypted_password" !in p && "reset_password_token" !in p && "sign_in_count" !in p;
      assert d == UserDraftOf(users[id]).(name := d.name);
    }
  }

  /** A submitted name is written when the update is accepted. */
  lemma SubmittedNameWritten(id: Id, users: map<Id, User>, req: UserRequest, name: string)
    requires id in users && req.form.Some? && req.form.value[NameKey := Str(name)] == req.form.value
    ensures UpdateStep(Some(id), users, req, true) == UserOutcome(Ok, users[id := users[id].(name := name)])
  {
    assert NameKey in req.form.value;
    assert !Blank(req.form);
    var p := UserParams(req.form).value;
    var d := AssignUser(UserDraftOf(users[id]), p);
    assert "email" !in p && "encrypted_password" !in p && "reset_password_token" !in p && "sign_in_count" !in p;
    assert d == UserDraftOf(users[id].(name := name));
  }

  /** Without the allow-list an update could rewrite the email: the filter is what keeps it fixed. */
  lemma UnfilteredUpdateCouldChangeEmail(u: User, email: string)
    requires email != u.email
    ensures UpdateUser(u, map["email" := Str(email)], true) == Some(u.(email := email))
    ensures UpdateUser(u, Permit(map["email" := Str(email)], {NameKey}), true) == Some(u)
  {
    var d := AssignUser(UserDraftOf(u), map["email" := Str(email)]);
    assert d == UserDraftOf(u.(email := email));
    assert Permit(map["email" := Str(email)], {NameKey}) == map[];
  }

  /** The status is ok exactly when the update was saved; otherwise nothing is written. */
  lemma OkIffSaved(id: Id, users: map<Id, User>, req: UserRequest, valid: bool)
    requires id in users && !Blank(req.form)
    ensures var o := UpdateStep(Some(id), users, req, valid);
      (o.response == Ok <==> UpdateUser(users[id], UserParams(req.form).value, valid).Some?) &&
      (o.response != Ok ==> o.response == Unprocessable && o.users == users)
  {
  }

  /** An update never breaks the uniqueness of emails and reset tokens, since it never writes them. */
  lemma UpdateKeepsUsersUnique(current: Option<Id>, users: map<Id, User>, req: UserRequest, valid: bool)
    requires SessionOk(current, users) && UsersUnique(users)
    ensures UsersUnique(UpdateStep(current, users, req, valid).users)
  {
    OnlyOwnNameChanges(current, users, req, valid);
    var o := UpdateStep(current, users, req, valid);
    forall a, b | a in o.users && b in o.users && a != b
      ensures !SameEmail(o.users[a], o.users[b]) && !SameResetToken(o.users[a], o.users[b])
    {
      assert !SameEmail(users[a], users[b]) && !SameResetToken(users[a], users[b]);
      assert o.users[a].email == users[a].email && o.users[b].email == users[b].email;
    }
  }

  // ---------------------------------------------------------------- the store and the controller

  /** The users table. */
  class UserStore {
    var users: map<Id, User>

    constructor (users: map<Id, User>)
      ensures this.users == users
    {
      this.users := users;
    }
  }

  /** One controller instance serves one request; `user` is `@user`. */
  class UsersController {
    const store: UserStore
    var user: Option<Id>

    constructor (store: UserStore)
      ensures this.store == store && user.None?
    {
      this.store := store;
      user := None;
    }

    /** `set_user`: the record acted on is always the signed-in user's. */
    method SetUser(current: Option<Id>)
      modifies this
      ensures user == current
    {
      user := current;
    }

    method Show(current: Option<Id>, req: UserRequest) returns (resp: UserResponse)
      requires SessionOk(current, store.users)
      modifies this
      ensures resp == ShowStep(current, store.users, req)
    {
      if current.None? {
        return RedirectToSignIn;
      }
      SetUser(current);
      resp := ShowUser(store.users[user.value]);
    }

    method Update(current: Option<Id>, req: UserRequest, valid: bool) returns (resp: UserResponse)
      requires SessionOk(current, store.users)
      modifies this, store
      ensures var o := UpdateStep(current, old(store.users), req, valid); resp == o.response && store.users == o.users
    {
      if current.None? {
        return RedirectToSignIn;
      }
      SetUser(current);
      var p := UserParams(req.form);
      if p.Failure? {
        return BadRequest;
      }
      var saved := UpdateUser(store.users[user.value], p.value, valid);
      if saved.Some? {
        store.users := store.users[user.value := saved.value];
        resp := Ok;
      } else {
        resp := Unprocessable;
      }
    }
  }
}
