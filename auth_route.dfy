/** Sign-up and log-in (`app/api/auth/route.ts`). Password hashing and
    comparison (bcrypt) and token signing (JWT) are foreign: the hash is an
    input, the comparison and the signer are function parameters. */
module AuthRoute {
  import opened Basics
  import opened Store

  datatype AuthRequest = AuthRequest(email: string, password: string, name: string, isSignUp: bool)

  /** The only user fields either success path returns. */
  datatype PublicUser = PublicUser(id: Id, name: string, email: string)

  datatype Cookie = Cookie(name: string, value: string, httpOnly: bool, secure: bool,
                           sameSite: string, maxAge: nat)

  datatype AuthOk = AuthOk(user: PublicUser, cookie: Cookie)

  const InvalidCredentials: string := "Invalid credentials"
  const EmailTaken: string := "Email already exists"

  /** The session cookie: "token", http-only, secure, same-site strict, one
      week (604800 seconds). */
  function SessionCookie(token: string): (c: Cookie)
    ensures c.name == "token" && c.value == token && c.httpOnly && c.secure
    ensures c.sameSite == "strict" && c.maxAge == 604800
  {
    Cookie("token", token, true, true, "strict", 60 * 60 * 24 * 7)
  }

  /** The successful reply for a user row; the token signs the user's id and
      email. */
  function Success(id: Id, u: UserRow, sign: (Id, string) -> string): AuthOk {
    AuthOk(PublicUser(id, u.name, u.email), SessionCookie(sign(id, u.email)))
  }

  /** The lazy plan seeding of sign-up, returning the plans and the FREE
      plan's id. With a FREE plan nothing is created; otherwise FREE is
      created as `freeId`, then PAID as `paidId`, where a PAID plan already
      present makes that create fail, which is ignored. */
  ghost function SeedPlans(plans: map<Id, PlanRow>, freeId: Id, paidId: Id): (r: (map<Id, PlanRow>, Id))
    ensures freeId !in plans && paidId !in plans && freeId != paidId ==>
              r.1 in r.0 && r.0[r.1].name == "FREE"
              && (forall p :: p in plans ==> p in r.0 && r.0[p] == plans[p])
  {
    match FindBy(plans, PlanNameOf, "FREE")
    case Some(f) => (plans, f)
    case None =>
      var p1 := plans[freeId := FreePlan];
      if FindBy(p1, PlanNameOf, "PAID").Some? then (p1, freeId) else (p1[paidId := PaidPlan], freeId)
  }

  /** Sign-up as a function of the store's content, given the ids new rows
      receive and the password hash. A taken email fails the user create
      (the unique-constraint error) and is answered with 400; plans created
      before that stay. */
  ghost function SignUp(t: Tables, planDefault: string, req: AuthRequest, passwordHash: string,
                        sign: (Id, string) -> string, freeId: Id, paidId: Id, userId: Id)
    : (Tables, Response<AuthOk>)
  {
    var (plans, free) := SeedPlans(t.plans, freeId, paidId);
    if FindBy(t.users, EmailOf, req.email).Some? then (t.(plans := plans), Error(400, EmailTaken))
    else
      var u := UserRow(req.email, passwordHash, req.name, planDefault, Some(free));
      (t.(plans := plans, users := t.users[userId := u]), Ok(Success(userId, u, sign)))
  }

  /** Log-in: an unknown email and a wrong password get the same 401. */
  ghost function LogIn(t: Tables, req: AuthRequest, matches: (string, string) -> bool,
                       sign: (Id, string) -> string): Response<AuthOk>
  {
    match FindBy(t.users, EmailOf, req.email)
    case None => Error(401, InvalidCredentials)
    case Some(id) =>
      if !matches(req.password, t.users[id].passwordHash) then Error(401, InvalidCredentials)
      else Ok(Success(id, t.users[id], sign))
  }

  /** Sign-up finding a FREE plan creates no plan, even when PAID is missing. */
  lemma SignUpWithFreePlanCreatesNone(plans: map<Id, PlanRow>, f: Id, freeId: Id, paidId: Id)
    requires Unique(plans, PlanNameOf) && f in plans && plans[f].name == "FREE"
    ensures SeedPlans(plans, freeId, paidId) == (plans, f)
  {
    FindByUnique(plans, PlanNameOf, f);
  }

  /** Sign-up without a FREE plan adds FREE, and PAID unless a PAID plan is
      already there; no other plan row changes. */
  lemma {:induction false} SignUpSeedsPlans(plans: map<Id, PlanRow>, freeId: Id, paidId: Id)
    requires Unique(plans, PlanNameOf) && freeId !in plans && paidId !in plans && freeId != paidId
    requires forall p :: p in plans ==> plans[p].name != "FREE"
    ensures var (plans', free) := SeedPlans(plans, freeId, paidId);
            && free == freeId && plans'[freeId] == FreePlan
            && (forall p :: p in plans ==> p in plans' && plans'[p] == plans[p])
            && ((exists p :: p in plans && plans[p].name == "PAID") ==> plans' == plans[freeId := FreePlan])
            && ((forall p :: p in plans ==> plans[p].name != "PAID") ==>
                  plans' == plans[freeId := FreePlan][paidId := PaidPlan])
            && Unique(plans', PlanNameOf)
  {
    var p1 := plans[freeId := FreePlan];
    UniqueInsert(plans, PlanNameOf, freeId, FreePlan);
    if exists p :: p in plans && plans[p].name == "PAID" {
      var p :| p in plans && plans[p].name == "PAID";
      assert p1[p].name == "PAID";
    } else {
      assert FindBy(p1, PlanNameOf, "PAID").None?;
      UniqueInsert(p1, PlanNameOf, paidId, PaidPlan);
    }
  }

  /** A successful sign-up adds exactly the new user, linked to the FREE
      plan, with the stored hash, and leaves the plan string to the schema
      default; a taken email adds no user. */
  lemma {:induction false} SignUpCreatesUser(t: Tables, planDefault: string, req: AuthRequest, passwordHash: string,
                                             sign: (Id, string) -> string, freeId: Id, paidId: Id, userId: Id)
    requires Inv(t) && freeId !in t.plans && paidId !in t.plans && freeId != paidId && userId !in t.users
    ensures var (t', r) := SignUp(t, planDefault, req, passwordHash, sign, freeId, paidId, userId);
            && (r.Ok? <==> forall v :: v in t.users ==> t.users[v].email != req.email)
            && (r.Error? ==> r == Error(400, EmailTaken) && t'.users == t.users)
            && (r.Ok? ==> t'.users == t.users[userId := UserRow(req.email, passwordHash, req.name, planDefault,
                                                                 t'.users[userId].planId)]
                          && t'.users[userId].planId.Some?
                          && t'.users[userId].planId.value in t'.plans
                          && t'.plans[t'.users[userId].planId.value].name == "FREE"
                          && r.body.user == PublicUser(userId, req.name, req.email))
            && Inv(t')
  {
    var (plans, free) := SeedPlans(t.plans, freeId, paidId);
    match FindBy(t.plans, PlanNameOf, "FREE")
    case Some(f) =>
      SignUpWithFreePlanCreatesNone(t.plans, f, freeId, paidId);
    case None =>
      SignUpSeedsPlans(t.plans, freeId, paidId);
    if FindBy(t.users, EmailOf, req.email).None? {
      UniqueInsert(t.users, EmailOf, userId, UserRow(req.email, passwordHash, req.name, planDefault, Some(free)));
    }
  }

  /** An unknown email and a known email with a wrong password are answered
      identically. */
  lemma LogInFailuresAlike(t: Tables, req: AuthRequest, req2: AuthRequest,
                           matches: (string, string) -> bool, sign: (Id, string) -> string)
    requires forall v :: v in t.users ==> t.users[v].email != req.email
    requires FindBy(t.users, EmailOf, req2.email).Some?
    requires !matches(req2.password, t.users[FindBy(t.users, EmailOf, req2.email).value].passwordHash)
    ensures LogIn(t, req, matches, sign) == LogIn(t, req2, matches, sign) == Error(401, InvalidCredentials)
  {
  }

  /** Log-in succeeds exactly for a stored email whose hash matches, and then
      answers with that user's id, name and email. */
  lemma {:induction false} LogInSucceeds(t: Tables, req: AuthRequest, matches: (string, string) -> bool,
                                         sign: (Id, string) -> string, id: Id)
    requires Inv(t) && id in t.users && t.users[id].email == req.email
    ensures LogIn(t, req, matches, sign).Ok? <==> matches(req.password, t.users[id].passwordHash)
    ensures LogIn(t, req, matches, sign).Ok? ==>
              LogIn(t, req, matches, sign).body.user == PublicUser(id, t.users[id].name, req.email)
  {
    FindByUnique(t.users, EmailOf, id);
  }

  /** `POST`. */
  method Post(store: Db, req: AuthRequest, passwordHash: string,
              matches: (string, string) -> bool, sign: (Id, string) -> string)
    returns (r: Response<AuthOk>)
    requires store.Valid()
    modifies store
    ensures store.Valid()
    ensures !req.isSignUp ==> store.Snap() == old(store.Snap()) && r == LogIn(store.Snap(), req, matches, sign)
    ensures req.isSignUp ==>
              exists freeId, paidId, userId :: freeId !in old(store.plans) && paidId !in old(store.plans)
                && freeId !in LinkedPlanIds(old(store.users)) && paidId !in LinkedPlanIds(old(store.users))
                && freeId != paidId && userId !in old(store.users)
                && (store.Snap(), r) == SignUp(old(store.Snap()), store.userPlanDefault, req, passwordHash, sign,
                                               freeId, paidId, userId)
  {
    if req.isSignUp {
      ghost var t := store.Snap();
      var usedPlanIds := store.plans.Keys + LinkedPlanIds(store.users);
      var freeId := FreshId(usedPlanIds);
      var paidId := FreshId(usedPlanIds + {freeId});
      var userId := FreshId(store.users.Keys);
      SignUpCreatesUser(t, store.userPlanDefault, req, passwordHash, sign, freeId, paidId, userId);
      var free := Lookup(store.plans, PlanNameOf, "FREE");
      var freePlanId: Id;
      if free.Some? {
        freePlanId := free.value;
      } else {
        store.plans := store.plans[freeId := FreePlan];
        freePlanId := freeId;
        UniqueInsert(t.plans, PlanNameOf, freeId, FreePlan);
        var paid := Lookup(store.plans, PlanNameOf, "PAID");
        if paid.None? {
          store.plans := store.plans[paidId := PaidPlan];
        }
      }
      var taken := Lookup(store.users, EmailOf, req.email);
      if taken.Some? {
        r := Error(400, EmailTaken);
      } else {
        var u := UserRow(req.email, passwordHash, req.name, store.userPlanDefault, Some(freePlanId));
        store.users := store.users[userId := u];
        r := Ok(Success(userId, u, sign));
      }
      assert (store.Snap(), r) == SignUp(t, store.userPlanDefault, req, passwordHash, sign, freeId, paidId, userId);
    } else {
      var found := Lookup(store.users, EmailOf, req.email);
      if found.None? || !matches(req.password, store.users[found.value].passwordHash) {
        r := Error(401, InvalidCredentials);
      } else {
        r := Ok(Success(found.value, store.users[found.value], sign));
      }
    }
  }
}
