/** The profile name update (`app/api/user/update/route.ts`). Token
    verification is foreign: `verify` yields the payload or None on any
    failure. */
module UserUpdateRoute {
  import opened Basics
  import opened JsStrings
  import opened Store

  /** The selected fields returned after the update. */
  datatype UserView = UserView(id: Id, name: string, email: string, plan: string)

  const Unauthorized: string := "Unauthorized"
  const NameRequired: string := "Name is required"
  const UpdateFailed: string := "Failed to update user"

  /** `PATCH` as a function of the store's content. A missing cookie, a token
      that fails verification or carries no user id get 401; a missing or
      blank name 400; an unknown user makes the update throw, answered with
      500; otherwise only the user's name becomes the trimmed input. */
  function Patch(t: Tables, cookie: Option<string>, verify: string -> Option<Claims>, name: Option<string>)
    : (Tables, Response<UserView>)
  {
    if cookie.None? then (t, Error(401, Unauthorized))
    else
      var claims := verify(cookie.value);
      if claims.None? || !Truthy(claims.value.userId) then (t, Error(401, Unauthorized))
      else if name.None? || name.value == "" || Trim(name.value) == "" then (t, Error(400, NameRequired))
      else
        var uid := claims.value.userId.value;
        if uid !in t.users then (t, Error(500, UpdateFailed))
        else
          var u := t.users[uid].(name := Trim(name.value));
          (t.(users := t.users[uid := u]), Ok(UserView(uid, u.name, u.email, u.plan)))
  }

  /** A name made only of whitespace is refused with 400 and nothing is
      written, for an authenticated caller. */
  lemma {:induction false} BlankNameRefused(t: Tables, cookie: string, verify: string -> Option<Claims>, name: string)
    requires verify(cookie).Some? && Truthy(verify(cookie).value.userId)
    requires AllWhitespace(name)
    ensures Patch(t, Some(cookie), verify, Some(name)) == (t, Error(400, NameRequired))
  {
    TrimEmptyIff(name);
  }

  /** Every refusal leaves the store as it was. */
  lemma RefusalChangesNothing(t: Tables, cookie: Option<string>, verify: string -> Option<Claims>, name: Option<string>)
    requires Patch(t, cookie, verify, name).1.Error?
    ensures Patch(t, cookie, verify, name).0 == t
  {
  }

  /** On success only the caller's name changes; it becomes the input
      without leading or trailing whitespace, and is not empty; the reply
      shows the updated row; the invariants hold. */
  lemma {:induction false} UpdateChangesOnlyName(t: Tables, cookie: Option<string>, verify: string -> Option<Claims>,
                                                 name: Option<string>)
    requires Inv(t)
    requires Patch(t, cookie, verify, name).1.Ok?
    ensures cookie.Some? && verify(cookie.value).Some? && verify(cookie.value).value.userId.Some?
    ensures name.Some?
    ensures var (t', r) := Patch(t, cookie, verify, name);
            var uid := verify(cookie.value).value.userId.value;
            var n := Trim(name.value);
            && uid in t.users && t'.users == t.users[uid := t.users[uid].(name := n)]
            && t'.plans == t.plans && t'.events == t.events && t'.payments == t.payments
            && t'.products == t.products && t'.clock == t.clock
            && n != "" && !IsWhitespace(n[0]) && !IsWhitespace(n[|n| - 1])
            && r.body == UserView(uid, n, t.users[uid].email, t.users[uid].plan)
            && Inv(t')
  {
    var uid := verify(cookie.value).value.userId.value;
    var u := t.users[uid].(name := Trim(name.value));
    assert Patch(t, cookie, verify, name) == (t.(users := t.users[uid := u]), Ok(UserView(uid, u.name, u.email, u.plan)));
    UniqueInsert(t.users, EmailOf, uid, u);
  }

  /** `PATCH`. */
  method Update(store: Db, cookie: Option<string>, verify: string -> Option<Claims>, name: Option<string>)
    returns (r: Response<UserView>)
    requires store.Valid()
    modifies store
    ensures store.Valid()
    ensures (store.Snap(), r) == Patch(old(store.Snap()), cookie, verify, name)
  {
    ghost var t := store.Snap();
    if cookie.None? {
      return Error(401, Unauthorized);
    }
    var claims := verify(cookie.value);
    if claims.None? || !Truthy(claims.value.userId) {
      return Error(401, Unauthorized);
    }
    if name.None? || name.value == "" || Trim(name.value) == "" {
      return Error(400, NameRequired);
    }
    var uid := claims.value.userId.value;
    if uid !in store.users {
      return Error(500, UpdateFailed);
    }
    UpdateChangesOnlyName(t, cookie, verify, name);
    var u := store.users[uid].(name := Trim(name.value));
    store.users := store.users[uid := u];
    r := Ok(UserView(uid, u.name, u.email, u.plan));
  }
}
