/** What the routes guarantee: the store invariant, counters that never decrease, the claim
    and exhaustion rules, and the account rules. */
module Properties {
  import opened Common
  import opened Text
  import opened Auth
  import opened Documents
  import opened Routes
  import Referrer

  // ---------------------------------------------------------------- the invariant

  lemma IssuedMonotone(verify: string -> Option<Claims>, a: UserId, b: UserId)
    requires Issued(verify, a) && a <= b
    ensures Issued(verify, b)
  {
  }

  lemma MiddlewaresKeepValid(db: Db, ctx: Context, verb: string, c: Counter, now: Time)
    requires Valid(db)
    ensures Valid(TrackVisitor(db, ctx, verb, now)) && Valid(CountApiCall(db, c, now))
  {
  }

  lemma ListKeepsValid(db: Db, ctx: Context, now: Time)
    requires Valid(db)
    ensures Valid(ListTreasures(db, ctx, now).db)
    ensures ListTreasures(db, ctx, now).db.nextUserId == db.nextUserId
    ensures ListTreasures(db, ctx, now).db.nextTreasureId == db.nextTreasureId
  {
    MiddlewaresKeepValid(db, ctx, "GET", AppOpen, now);
    MiddlewaresKeepValid(TrackVisitor(db, ctx, "GET", now), ctx, "GET", AppOpen, now);
  }

  lemma CreateHandlerKeepsValid(db: Db, caller: Option<UserId>, body: CreateBody)
    requires Valid(db) && (caller.Some? ==> caller.value < db.nextUserId)
    ensures Valid(CreateHandler(db, caller, body).db)
    ensures CreateHandler(db, caller, body).db.nextUserId == db.nextUserId
    ensures db.nextTreasureId <= CreateHandler(db, caller, body).db.nextTreasureId
  {
  }

  lemma CreateKeepsValid(db: Db, ctx: Context, verify: string -> Option<Claims>, body: CreateBody, now: Time)
    requires Valid(db) && Issued(verify, db.nextUserId)
    ensures Valid(CreateTreasure(db, ctx, verify, body, now).db)
    ensures CreateTreasure(db, ctx, verify, body, now).db.nextUserId == db.nextUserId
    ensures db.nextTreasureId <= CreateTreasure(db, ctx, verify, body, now).db.nextTreasureId
  {
    var auth := OptionalAuth(ctx.authorization, verify);
    if !auth.Rejected? {
      var db1 := TrackVisitor(db, ctx, "POST", now);
      MiddlewaresKeepValid(db, ctx, "POST", TreasuresCreated, now);
      MiddlewaresKeepValid(db1, ctx, "POST", TreasuresCreated, now);
      var db2 := CountApiCall(db1, TreasuresCreated, now);
      assert db2.nextUserId == db.nextUserId && db2.nextTreasureId == db.nextTreasureId;
      CreateHandlerKeepsValid(db2, LoggedIn(auth), body);
    }
  }

  lemma ClaimHandlerKeepsValid(db: Db, caller: Option<UserId>, id: IdParam, now: Time)
    requires Valid(db) && (caller.Some? ==> caller.value < db.nextUserId)
    ensures Valid(ClaimHandler(db, caller, id, now).db)
    ensures ClaimHandler(db, caller, id, now).db.nextUserId == db.nextUserId
    ensures ClaimHandler(db, caller, id, now).db.nextTreasureId == db.nextTreasureId
  {
    if id.WellFormed? && id.id in db.treasures {
      var n := id.id;
      var t := db.treasures[n].(remainingBoxes := db.treasures[n].remainingBoxes - 1);
      var o := ClaimHandler(db, caller, id, now);
      assert o.db.users == db.users;
      assert forall k :: k in o.db.treasures ==> k in db.treasures && (k == n || o.db.treasures[k] == db.treasures[k]);
      if n in o.db.treasures {
        assert t.remainingBoxes > 0;
        assert o.db.treasures[n] == t;
      }
    }
  }

  lemma ClaimKeepsValid(db: Db, ctx: Context, verify: string -> Option<Claims>, id: IdParam, now: Time)
    requires Valid(db) && Issued(verify, db.nextUserId)
    ensures Valid(ClaimTreasure(db, ctx, verify, id, now).db)
    ensures ClaimTreasure(db, ctx, verify, id, now).db.nextUserId == db.nextUserId
    ensures ClaimTreasure(db, ctx, verify, id, now).db.nextTreasureId == db.nextTreasureId
  {
    var auth := OptionalAuth(ctx.authorization, verify);
    if !auth.Rejected? {
      var db1 := TrackVisitor(db, ctx, "PATCH", now);
      MiddlewaresKeepValid(db, ctx, "PATCH", TreasuresOpened, now);
      MiddlewaresKeepValid(db1, ctx, "PATCH", TreasuresOpened, now);
      var db2 := CountApiCall(db1, TreasuresOpened, now);
      assert db2.nextUserId == db.nextUserId && db2.nextTreasureId == db.nextTreasureId;
      ClaimHandlerKeepsValid(db2, LoggedIn(auth), id, now);
    }
  }

  lemma OpenedAppKeepsValid(db: Db, ctx: Context, verify: string -> Option<Claims>, now: Time)
    requires Valid(db)
    ensures Valid(OpenedApp(db, ctx, verify, now).db)
  {
  }

  lemma UserTimeKeepsValid(db: Db, authorization: Option<string>, verify: string -> Option<Claims>, d: Option<int>)
    requires Valid(db)
    ensures Valid(LogUserTime(db, authorization, verify, d).db)
  {
  }

  /** Registration either changes nothing or adds one account and one zeroed report under the
      next user id. */
  lemma RegisterShape(db: Db, body: RegisterBody, digest: string, now: Time)
    ensures var o := Register(db, body, digest, now);
      o.db == db
      || (o.reply.status == 201 && db.nextUserId in o.db.users
          && o.db == db.(users := db.users[db.nextUserId := o.db.users[db.nextUserId]],
                         reports := db.reports[db.nextUserId := ZeroReport], nextUserId := db.nextUserId + 1))
  {
  }

  /** The route's value on the path where the account is saved. */
  lemma Enrolled(db: Db, body: RegisterBody, digest: string, now: Time)
    requires Saves(db, body)
    ensures var uid := db.nextUserId;
      var user := User(Normalize(body.username.value), Normalize(body.email.value), digest, body.gender,
                       body.ageRange, body.referral, now, None, None);
      Register(db, body, digest, now)
        == Outcome(db.(users := db.users[uid := user], reports := db.reports[uid := ZeroReport], nextUserId := uid + 1),
                   Reply(201, Note(Registered)))
  {
  }

  /** An account whose name and email no stored account has, and which holds no reset token,
      keeps the accounts unique. */
  lemma AddKeepsUnique(users: map<UserId, User>, uid: UserId, user: User)
    requires UniqueAccounts(users) && uid !in users && user.resetToken.None?
    requires forall u :: u in users ==> users[u].username != user.username && users[u].email != user.email
    ensures UniqueAccounts(users[uid := user])
  {
    var after := users[uid := user];
    forall u, v | u in after && v in after && u != v
      ensures after[u].username != after[v].username && after[u].email != after[v].email
              && (after[u].resetToken.Some? ==> after[u].resetToken != after[v].resetToken)
    {
      if u != uid && v != uid {
        assert after[u] == users[u] && after[v] == users[v];
      }
    }
  }

  lemma RegisterKeepsValid(db: Db, body: RegisterBody, digest: string, now: Time)
    requires Valid(db)
    ensures Valid(Register(db, body, digest, now).db)
  {
    if Saves(db, body) {
      var uid := db.nextUserId;
      var user := User(Normalize(body.username.value), Normalize(body.email.value), digest, body.gender,
                       body.ageRange, body.referral, now, None, None);
      Enrolled(db, body, digest, now);
      assert uid !in db.users;
      AddKeepsUnique(db.users, uid, user);
    } else {
      RefusedRegisterChangesNothing(db, body, digest, now);
    }
  }

  /** Every path of registration but the save leaves the store as it was. */
  lemma RefusedRegisterChangesNothing(db: Db, body: RegisterBody, digest: string, now: Time)
    requires !Saves(db, body)
    ensures Register(db, body, digest, now).db == db
    ensures Register(db, body, digest, now).reply.status != 201
  {
  }

  lemma ForgotKeepsValid(db: Db, email: Option<string>, token: string, now: Time, sent: bool)
    requires Valid(db) && FreshToken(db.users, token)
    ensures Valid(ForgotPassword(db, email, token, now, sent).db)
  {
  }

  lemma ResetPasswordKeepsValid(db: Db, token: string, password: Option<string>, digest: string, now: Time)
    requires Valid(db)
    ensures Valid(ResetPassword(db, token, password, digest, now).db)
  {
  }

  /** Login writes to the reports and nowhere else, and there only the last login. */
  lemma LoginTouchesOnlyReports(db: Db, env: Env, username: Option<string>, password: Option<string>, now: Time)
    ensures var after := Login(db, username, password, env.matches, env.sign, now).db;
      && after == db.(reports := after.reports) && after.reports.Keys == db.reports.Keys
      && forall u :: u in db.reports ==> after.reports[u] == db.reports[u].(lastLogin := after.reports[u].lastLogin)
  {
  }

  lemma LoginKeepsValid(db: Db, env: Env, username: Option<string>, password: Option<string>, now: Time)
    requires Valid(db)
    ensures Valid(Login(db, username, password, env.matches, env.sign, now).db)
  {
  }

  /** Every request keeps the store invariant, and the id generator never goes back. */
  lemma StepKeepsValid(db: Db, env: Env, req: Request, now: Time)
    requires Valid(db) && Issued(env.verify, db.nextUserId) && Admissible(db, req)
    ensures Valid(Step(db, env, req, now).db)
    ensures db.nextUserId <= Step(db, env, req, now).db.nextUserId
    ensures db.nextTreasureId <= Step(db, env, req, now).db.nextTreasureId
  {
    if req.ListReq? || req.CreateReq? || req.ClaimReq? || req.OpenedAppReq? {
      TreasureStepKeepsValid(db, env, req, now);
    } else if req.RegisterReq? || req.LoginReq? || req.VerifyReq? {
      AccountStepKeepsValid(db, env, req, now);
    } else if req.ForgotReq? || req.ResetPasswordReq? {
      RecoveryStepKeepsValid(db, env, req, now);
    } else {
      OtherStepKeepsValid(db, env, req, now);
    }
  }

  lemma TreasureStepKeepsValid(db: Db, env: Env, req: Request, now: Time)
    requires Valid(db) && Issued(env.verify, db.nextUserId)
    requires req.ListReq? || req.CreateReq? || req.ClaimReq? || req.OpenedAppReq?
    ensures Valid(Step(db, env, req, now).db)
    ensures db.nextUserId <= Step(db, env, req, now).db.nextUserId
    ensures db.nextTreasureId <= Step(db, env, req, now).db.nextTreasureId
  {
    match req
    case ListReq(ctx) => ListKeepsValid(db, ctx, now);
    case CreateReq(ctx, body) => CreateKeepsValid(db, ctx, env.verify, body, now);
    case ClaimReq(ctx, target) => ClaimKeepsValid(db, ctx, env.verify, target, now);
    case OpenedAppReq(ctx) => OpenedAppKeepsValid(db, ctx, env.verify, now);
  }

  lemma AccountStepKeepsValid(db: Db, env: Env, req: Request, now: Time)
    requires Valid(db)
    requires req.RegisterReq? || req.LoginReq? || req.VerifyReq?
    ensures Valid(Step(db, env, req, now).db)
    ensures db.nextUserId <= Step(db, env, req, now).db.nextUserId
    ensures db.nextTreasureId <= Step(db, env, req, now).db.nextTreasureId
  {
    match req
    case RegisterReq(body, digest) => RegisterKeepsValid(db, body, digest, now); RegisterShape(db, body, digest, now);
    case LoginReq(u, pw) => LoginKeepsValid(db, env, u, pw, now); LoginTouchesOnlyReports(db, env, u, pw, now);
    case VerifyReq(a) =>
  }

  lemma RecoveryStepKeepsValid(db: Db, env: Env, req: Request, now: Time)
    requires Valid(db) && Admissible(db, req)
    requires req.ForgotReq? || req.ResetPasswordReq?
    ensures Valid(Step(db, env, req, now).db)
    ensures db.nextUserId <= Step(db, env, req, now).db.nextUserId
    ensures db.nextTreasureId <= Step(db, env, req, now).db.nextTreasureId
  {
    match req
    case ForgotReq(email, token, sent) => ForgotKeepsValid(db, email, token, now, sent);
    case ResetPasswordReq(token, pw, digest) => ResetPasswordKeepsValid(db, token, pw, digest, now);
  }

  lemma OtherStepKeepsValid(db: Db, env: Env, req: Request, now: Time)
    requires Valid(db)
    requires req.VisitorTimeReq? || req.UserTimeReq? || req.ReferrerReq? || req.StatsReq?
             || req.AdminListReq? || req.AdminGetReq? || req.ResetDataReq?
    ensures Valid(Step(db, env, req, now).db)
    ensures db.nextUserId <= Step(db, env, req, now).db.nextUserId
    ensures db.nextTreasureId <= Step(db, env, req, now).db.nextTreasureId
  {
    match req
    case VisitorTimeReq(ip, d) =>
    case UserTimeReq(a, d) => UserTimeKeepsValid(db, a, env.verify, d);
    case ReferrerReq(r, h) =>
    case StatsReq =>
    case AdminListReq =>
    case AdminGetReq(target) =>
    case ResetDataReq(pw) =>
  }

  /** Any run of requests whose reset tokens never repeat keeps the invariant. */
  lemma {:induction false} RunKeepsValid(db: Db, env: Env, calls: seq<Call>)
    requires Valid(db) && Issued(env.verify, db.nextUserId) && RunAdmissible(db, env, calls)
    ensures Valid(Run(db, env, calls))
    decreases |calls|
  {
    if calls != [] {
      var next := Step(db, env, calls[0].req, calls[0].now).db;
      StepKeepsValid(db, env, calls[0].req, calls[0].now);
      IssuedMonotone(env.verify, db.nextUserId, next.nextUserId);
      RunKeepsValid(next, env, calls[1..]);
    }
  }

  // ---------------------------------------------------------------- counters only grow

  /** No stats, visitor, report or referrer counter of `a` is lower in `b`, no such document
      went away, a referrer keeps its platform, and the id generator has not gone back. */
  ghost predicate Grows(a: Db, b: Db) {
    && StatsGrow(StatsOf(a), StatsOf(b))
    && (forall ip :: ip in a.visitors ==> ip in b.visitors && VisitorGrows(a.visitors[ip], b.visitors[ip]))
    && (forall u :: u in a.reports ==> u in b.reports && ReportGrows(a.reports[u], b.reports[u]))
    && (forall d :: d in a.referrers ==> d in b.referrers && a.referrers[d].count <= b.referrers[d].count
                                         && a.referrers[d].platform == b.referrers[d].platform)
    && a.nextTreasureId <= b.nextTreasureId && a.nextUserId <= b.nextUserId
  }

  lemma GrowsReflexive(a: Db)
    ensures Grows(a, a)
  {
  }

  lemma GrowsTransitive(a: Db, b: Db, c: Db)
    requires Grows(a, b) && Grows(b, c)
    ensures Grows(a, c)
  {
    forall k: Counter ensures Count(StatsOf(a), k) <= Count(StatsOf(c), k) {
      assert Count(StatsOf(a), k) <= Count(StatsOf(b), k);
    }
  }

  lemma TrackVisitorGrows(db: Db, ctx: Context, verb: string, now: Time)
    ensures Grows(db, TrackVisitor(db, ctx, verb, now))
  {
  }

  lemma CountApiCallGrows(db: Db, c: Counter, now: Time)
    ensures Grows(db, CountApiCall(db, c, now))
  {
  }

  lemma MiddlewaresGrow(db: Db, ctx: Context, verb: string, c: Counter, now: Time)
    ensures Grows(db, TrackVisitor(db, ctx, verb, now))
    ensures Grows(db, CountApiCall(db, c, now))
  {
    TrackVisitorGrows(db, ctx, verb, now);
    CountApiCallGrows(db, c, now);
  }

  lemma BothMiddlewaresGrow(db: Db, ctx: Context, verb: string, c: Counter, now: Time)
    ensures Grows(db, CountApiCall(TrackVisitor(db, ctx, verb, now), c, now))
  {
    var db1 := TrackVisitor(db, ctx, verb, now);
    MiddlewaresGrow(db, ctx, verb, c, now);
    MiddlewaresGrow(db1, ctx, verb, c, now);
    GrowsTransitive(db, db1, CountApiCall(db1, c, now));
  }

  lemma ClaimHandlerGrows(db: Db, caller: Option<UserId>, id: IdParam, now: Time)
    ensures Grows(db, ClaimHandler(db, caller, id, now).db)
  {
  }

  lemma CreateHandlerGrows(db: Db, caller: Option<UserId>, body: CreateBody)
    ensures Grows(db, CreateHandler(db, caller, body).db)
  {
  }

  lemma ClaimGrows(db: Db, ctx: Context, verify: string -> Option<Claims>, id: IdParam, now: Time)
    ensures Grows(db, ClaimTreasure(db, ctx, verify, id, now).db)
  {
    var auth := OptionalAuth(ctx.authorization, verify);
    if !auth.Rejected? {
      var db2 := CountApiCall(TrackVisitor(db, ctx, "PATCH", now), TreasuresOpened, now);
      BothMiddlewaresGrow(db, ctx, "PATCH", TreasuresOpened, now);
      ClaimHandlerGrows(db2, LoggedIn(auth), id, now);
      GrowsTransitive(db, db2, ClaimHandler(db2, LoggedIn(auth), id, now).db);
    } else {
      GrowsReflexive(db);
    }
  }

  lemma CreateGrows(db: Db, ctx: Context, verify: string -> Option<Claims>, body: CreateBody, now: Time)
    ensures Grows(db, CreateTreasure(db, ctx, verify, body, now).db)
  {
    var auth := OptionalAuth(ctx.authorization, verify);
    if !auth.Rejected? {
      var db2 := CountApiCall(TrackVisitor(db, ctx, "POST", now), TreasuresCreated, now);
      BothMiddlewaresGrow(db, ctx, "POST", TreasuresCreated, now);
      CreateHandlerGrows(db2, LoggedIn(auth), body);
      GrowsTransitive(db, db2, CreateHandler(db2, LoggedIn(auth), body).db);
    } else {
      GrowsReflexive(db);
    }
  }

  lemma VisitorAppOpenGrows(db: Db, ip: Option<string>, now: Time)
    ensures Grows(db, CountVisitorAppOpen(db, ip, now))
  {
  }

  lemma ReportAppOpenGrows(db: Db, caller: Option<UserId>, now: Time)
    ensures Grows(db, CountReportAppOpen(db, caller, now))
  {
  }

  lemma OpenedAppGrows(db: Db, ctx: Context, verify: string -> Option<Claims>, now: Time)
    ensures Grows(db, OpenedApp(db, ctx, verify, now).db)
  {
    var auth := OptionalAuth(ctx.authorization, verify);
    if auth.Rejected? {
      GrowsReflexive(db);
    } else {
      var db1 := CountVisitorAppOpen(db, ctx.ip, now);
      VisitorAppOpenGrows(db, ctx.ip, now);
      ReportAppOpenGrows(db1, LoggedIn(auth), now);
      GrowsTransitive(db, db1, CountReportAppOpen(db1, LoggedIn(auth), now));
    }
  }

  lemma VisitorTimeGrows(db: Db, ip: Option<string>, d: Option<int>)
    ensures Grows(db, LogVisitorTime(db, ip, d).db)
  {
  }

  lemma UserTimeGrows(db: Db, authorization: Option<string>, verify: string -> Option<Claims>, d: Option<int>)
    ensures Grows(db, LogUserTime(db, authorization, verify, d).db)
  {
  }

  lemma ReferrerGrows(db: Db, referrer: Option<string>, parsedHost: Option<string>)
    ensures Grows(db, TrackReferrer(db, referrer, parsedHost).db)
  {
  }

  lemma RegisterGrows(db: Db, body: RegisterBody, digest: string, now: Time)
    requires Valid(db)
    ensures Grows(db, Register(db, body, digest, now).db)
  {
    RegisterShape(db, body, digest, now);
  }

  lemma LoginGrows(db: Db, env: Env, username: Option<string>, password: Option<string>, now: Time)
    ensures Grows(db, Login(db, username, password, env.matches, env.sign, now).db)
  {
    LoginTouchesOnlyReports(db, env, username, password, now);
    ReportsStampedGrow(db, Login(db, username, password, env.matches, env.sign, now).db);
  }

  /** A store that differs only in report timestamps has lost no counter. */
  lemma ReportsStampedGrow(db: Db, after: Db)
    requires after == db.(reports := after.reports) && after.reports.Keys == db.reports.Keys
    requires forall u :: u in db.reports ==> after.reports[u] == db.reports[u].(lastLogin := after.reports[u].lastLogin)
    ensures Grows(db, after)
  {
  }

  lemma ForgotGrows(db: Db, email: Option<string>, token: string, now: Time, sent: bool)
    ensures Grows(db, ForgotPassword(db, email, token, now, sent).db)
  {
    ForgotTouchesOnlyUsers(db, email, token, now, sent);
  }

  /** The reset request writes to the accounts and nowhere else. */
  lemma ForgotTouchesOnlyUsers(db: Db, email: Option<string>, token: string, now: Time, sent: bool)
    ensures var after := ForgotPassword(db, email, token, now, sent).db;
      after == db.(users := after.users) && after.users.Keys == db.users.Keys
  {
  }

  lemma ResetPasswordGrows(db: Db, token: string, password: Option<string>, digest: string, now: Time)
    ensures Grows(db, ResetPassword(db, token, password, digest, now).db)
  {
  }

  lemma TreasureStepGrows(db: Db, env: Env, req: Request, now: Time)
    requires req.ListReq? || req.CreateReq? || req.ClaimReq? || req.OpenedAppReq?
    ensures Grows(db, Step(db, env, req, now).db)
  {
    match req
    case ListReq(ctx) => BothMiddlewaresGrow(db, ctx, "GET", AppOpen, now);
    case CreateReq(ctx, body) => CreateGrows(db, ctx, env.verify, body, now);
    case ClaimReq(ctx, target) => ClaimGrows(db, ctx, env.verify, target, now);
    case OpenedAppReq(ctx) => OpenedAppGrows(db, ctx, env.verify, now);
  }

  lemma AccountStepGrows(db: Db, env: Env, req: Request, now: Time)
    requires Valid(db)
    requires req.RegisterReq? || req.LoginReq? || req.VerifyReq?
    ensures Grows(db, Step(db, env, req, now).db)
  {
    match req
    case RegisterReq(body, digest) => RegisterGrows(db, body, digest, now);
    case LoginReq(u, pw) => LoginGrows(db, env, u, pw, now);
    case VerifyReq(a) => GrowsReflexive(db);
  }

  lemma RecoveryStepGrows(db: Db, env: Env, req: Request, now: Time)
    requires req.ForgotReq? || req.ResetPasswordReq?
    ensures Grows(db, Step(db, env, req, now).db)
  {
    match req
    case ForgotReq(email, token, sent) => ForgotGrows(db, email, token, now, sent);
    case ResetPasswordReq(token, pw, digest) => ResetPasswordGrows(db, token, pw, digest, now);
  }

  lemma OtherStepGrows(db: Db, env: Env, req: Request, now: Time)
    requires req.VisitorTimeReq? || req.UserTimeReq? || req.ReferrerReq? || req.StatsReq?
             || req.AdminListReq? || req.AdminGetReq?
    ensures Grows(db, Step(db, env, req, now).db)
  {
    match req
    case VisitorTimeReq(ip, d) => VisitorTimeGrows(db, ip, d);
    case UserTimeReq(a, d) => UserTimeGrows(db, a, env.verify, d);
    case ReferrerReq(r, h) => ReferrerGrows(db, r, h);
    case StatsReq => GrowsReflexive(db);
    case AdminListReq => GrowsReflexive(db);
    case AdminGetReq(target) => GrowsReflexive(db);
  }

  /** Only the admin reset lowers a counter: every other request leaves each where it was or higher. */
  lemma StepGrows(db: Db, env: Env, req: Request, now: Time)
    requires Valid(db) && !req.ResetDataReq?
    ensures Grows(db, Step(db, env, req, now).db)
  {
    if req.ListReq? || req.CreateReq? || req.ClaimReq? || req.OpenedAppReq? {
      TreasureStepGrows(db, env, req, now);
    } else if req.RegisterReq? || req.LoginReq? || req.VerifyReq? {
      AccountStepGrows(db, env, req, now);
    } else if req.ForgotReq? || req.ResetPasswordReq? {
      RecoveryStepGrows(db, env, req, now);
    } else {
      OtherStepGrows(db, env, req, now);
    }
  }

  /** Over any run without an admin reset, no counter decreases. */
  lemma {:induction false} RunGrows(db: Db, env: Env, calls: seq<Call>)
    requires Valid(db) && Issued(env.verify, db.nextUserId) && RunAdmissible(db, env, calls)
    requires forall k :: 0 <= k < |calls| ==> !calls[k].req.ResetDataReq?
    ensures Grows(db, Run(db, env, calls))
    decreases |calls|
  {
    if calls == [] {
      GrowsReflexive(db);
    } else {
      var next := Step(db, env, calls[0].req, calls[0].now).db;
      StepGrows(db, env, calls[0].req, calls[0].now);
      StepKeepsValid(db, env, calls[0].req, calls[0].now);
      IssuedMonotone(env.verify, db.nextUserId, next.nextUserId);
      RunGrows(next, env, calls[1..]);
      GrowsTransitive(db, next, Run(db, env, calls));
    }
  }

  /** The admin reset with the right password empties every collection but keeps the id generator. */
  lemma ResetDataClears(db: Db, password: string, adminPassword: Option<string>)
    requires password != "" && adminPassword == Some(password)
    ensures var o := ResetData(db, Some(password), adminPassword);
      o.reply.status == 200 && o.db.treasures == map[] && o.db.stats.None? && o.db.visitors == map[]
      && o.db.referrers == map[] && o.db.users == map[] && o.db.reports == map[]
      && o.db.nextTreasureId == db.nextTreasureId && o.db.nextUserId == db.nextUserId
  {
  }

  /** With a missing or wrong password nothing is deleted. */
  lemma ResetDataRefused(db: Db, password: Option<string>, adminPassword: Option<string>)
    requires Falsy(password) || Some(password.value) != adminPassword
    ensures ResetData(db, password, adminPassword) == Outcome(db, Reply(401, Note(WrongAdminPassword)))
  {
  }
}
