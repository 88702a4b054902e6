/** The server process: one object holding the store's collections, updated in place by the
    route handlers in the order the source performs its writes. Every handler is proved to
    leave the store and answer as the route function of `Routes` says, and to keep the store
    invariant. */
module Server {
  import opened Common
  import opened Text
  import opened Auth
  import opened Documents
  import Referrer
  import opened Routes
  import Properties
  import AccountRules

  class Backend {
    var treasures: map<TreasureId, Treasure>
    var stats: Option<GlobalStats>
    var visitors: map<string, Visitor>
    var referrers: map<string, Referrer.ReferrerStat>
    var users: map<UserId, User>
    var reports: map<UserId, Report>
    var nextTreasureId: TreasureId
    var nextUserId: UserId

    /** The store as a value. */
    function Snapshot(): Db
      reads this
    {
      Db(treasures, stats, visitors, referrers, users, reports, nextTreasureId, nextUserId)
    }

    ghost predicate Valid()
      reads this
    {
      Routes.Valid(Snapshot())
    }

    /** A fresh database: every collection empty. */
    constructor()
      ensures Snapshot() == EmptyDb && Valid()
    {
      treasures, stats, visitors, referrers := map[], None, map[], map[];
      users, reports, nextTreasureId, nextUserId := map[], map[], 0, 0;
    }

    // ------------------------------------------------------------ middlewares

    method CountApiCall(c: Counter, now: Time)
      modifies this
      ensures Snapshot() == Routes.CountApiCall(old(Snapshot()), c, now)
    {
      var current := stats.GetOr(ZeroStats);
      var stamp := if TimestampFor(CounterName(c)).Some? then Some(now) else None;
      stats := Some(Bump(current, c, stamp));
    }

    method TrackVisitor(ctx: Context, verb: string, now: Time)
      modifies this
      ensures Snapshot() == Routes.TrackVisitor(old(Snapshot()), ctx, verb, now)
    {
      if !Falsy(ctx.ip) {
        var ip := ctx.ip.value;
        var v := if ip in visitors then visitors[ip] else NewVisitor(now);
        visitors := visitors[ip := Visit(v, ctx.userAgent, ctx.device, VisitorCounterFor(verb, ctx.url), now)];
      }
    }

    // ------------------------------------------------------------ treasures

    method ListTreasures(ctx: Context, now: Time) returns (reply: Reply)
      requires Valid()
      modifies this
      ensures Outcome(Snapshot(), reply) == Routes.ListTreasures(old(Snapshot()), ctx, now)
      ensures Valid()
    {
      Properties.MiddlewaresKeepValid(Snapshot(), ctx, "GET", AppOpen, now);
      TrackVisitor(ctx, "GET", now);
      Properties.MiddlewaresKeepValid(Snapshot(), ctx, "GET", AppOpen, now);
      CountApiCall(AppOpen, now);
      reply := Reply(200, Listing(Available(treasures)));
    }

    method CreateTreasure(ctx: Context, verify: string -> Option<Claims>, body: CreateBody, now: Time) returns (reply: Reply)
      requires Valid() && Issued(verify, nextUserId)
      modifies this
      ensures Outcome(Snapshot(), reply) == Routes.CreateTreasure(old(Snapshot()), ctx, verify, body, now)
      ensures Valid()
    {
      Properties.CreateKeepsValid(Snapshot(), ctx, verify, body, now);
      var auth := OptionalAuth(ctx.authorization, verify);
      if auth.Rejected? {
        return Reply(auth.status, Note(Denied(auth.reason)));
      }
      TrackVisitor(ctx, "POST", now);
      CountApiCall(TreasuresCreated, now);
      reply := CreateHandler(LoggedIn(auth), body);
    }

    /** The create handler: save the treasure under the next id, then credit the creator. */
    method CreateHandler(caller: Option<UserId>, body: CreateBody) returns (reply: Reply)
      modifies this
      ensures Outcome(Snapshot(), reply) == Routes.CreateHandler(old(Snapshot()), caller, body)
    {
      if !(Castable(body.lat) && Castable(body.lng) && Castable(body.totalBoxes)) {
        return Reply(400, Note(ValidationFailed));
      }
      var id := nextTreasureId;
      var t := NewTreasure(body.place.(lat := AsOption(body.lat), lng := AsOption(body.lng)), body.totalBoxes);
      treasures, nextTreasureId := treasures[id := t], id + 1;
      match caller {
        case Some(uid) =>
          var r := EnsureReport(reports, uid);
          reports := reports[uid := r.(treasuresPlaced := r.treasuresPlaced + 1)];
        case None =>
      }
      reply := Reply(201, Doc(id, t));
    }

    /** The claim: decrement, credit the claimer, and on exhaustion count the completion and
        delete the coupon. */
    method ClaimTreasure(ctx: Context, verify: string -> Option<Claims>, target: IdParam, now: Time) returns (reply: Reply)
      requires Valid() && Issued(verify, nextUserId)
      modifies this
      ensures Outcome(Snapshot(), reply) == Routes.ClaimTreasure(old(Snapshot()), ctx, verify, target, now)
      ensures Valid()
    {
      Properties.ClaimKeepsValid(Snapshot(), ctx, verify, target, now);
      var auth := OptionalAuth(ctx.authorization, verify);
      if auth.Rejected? {
        return Reply(auth.status, Note(Denied(auth.reason)));
      }
      TrackVisitor(ctx, "PATCH", now);
      CountApiCall(TreasuresOpened, now);
      reply := ClaimHandler(LoggedIn(auth), target, now);
    }

    /** The claim handler: the decrement, the claimer's report, and on exhaustion the
        completed counter and the deletion. */
    method ClaimHandler(caller: Option<UserId>, target: IdParam, now: Time) returns (reply: Reply)
      modifies this
      ensures Outcome(Snapshot(), reply) == Routes.ClaimHandler(old(Snapshot()), caller, target, now)
    {
      if target.Malformed? {
        return Reply(400, Note(InvalidCouponId));
      }
      var n := target.id;
      if n !in treasures {
        return Reply(404, Note(CouponNotFound));
      }
      var t := treasures[n].(remainingBoxes := treasures[n].remainingBoxes - 1);
      treasures := treasures[n := t];
      match caller {
        case Some(uid) =>
          var r := EnsureReport(reports, uid);
          reports := reports[uid := r.(treasuresClaimed := r.treasuresClaimed + 1)];
        case None =>
      }
      if t.remainingBoxes <= 0 {
        stats, treasures := Some(Bump(stats.GetOr(ZeroStats), TreasuresCompleted, Some(now))), treasures - {n};
      }
      reply := Reply(200, Doc(n, t));
    }

    // ------------------------------------------------------------ visitors and stats

    method OpenedApp(ctx: Context, verify: string -> Option<Claims>, now: Time) returns (reply: Reply)
      requires Valid()
      modifies this
      ensures Outcome(Snapshot(), reply) == Routes.OpenedApp(old(Snapshot()), ctx, verify, now)
      ensures Valid()
    {
      Properties.OpenedAppKeepsValid(Snapshot(), ctx, verify, now);
      var auth := OptionalAuth(ctx.authorization, verify);
      if auth.Rejected? {
        return Reply(auth.status, Note(Denied(auth.reason)));
      }
      CountVisitorAppOpen(ctx.ip, now);
      CountReportAppOpen(LoggedIn(auth), now);
      reply := Reply(200, NoBody);
    }

    method CountVisitorAppOpen(ip: Option<string>, now: Time)
      modifies this
      ensures Snapshot() == Routes.CountVisitorAppOpen(old(Snapshot()), ip, now)
    {
      if !Falsy(ip) {
        var v := if ip.value in visitors then visitors[ip.value] else NewVisitor(now);
        visitors := visitors[ip.value := v.(appOpenCount := v.appOpenCount + 1)];
      }
    }

    method CountReportAppOpen(caller: Option<UserId>, now: Time)
      modifies this
      ensures Snapshot() == Routes.CountReportAppOpen(old(Snapshot()), caller, now)
    {
      match caller {
        case Some(uid) =>
          if uid in reports {
            reports := reports[uid := reports[uid].(appOpenCount := reports[uid].appOpenCount + 1, lastAppOpen := Some(now))];
          }
        case None =>
      }
    }

    method LogVisitorTime(ip: Option<string>, durationSeconds: Option<int>) returns (reply: Reply)
      requires Valid()
      modifies this
      ensures Outcome(Snapshot(), reply) == Routes.LogVisitorTime(old(Snapshot()), ip, durationSeconds)
      ensures Valid()
    {
      if Falsy(ip) || !PositiveDuration(durationSeconds) {
        return Reply(400, Note(InvalidData));
      }
      if ip.value in visitors {
        var v := visitors[ip.value];
        visitors := visitors[ip.value := v.(totalTimeOnPageSeconds := v.totalTimeOnPageSeconds + durationSeconds.value)];
      }
      reply := Reply(204, NoBody);
    }

    method LogUserTime(authorization: Option<string>, verify: string -> Option<Claims>, durationSeconds: Option<int>) returns (reply: Reply)
      requires Valid()
      modifies this
      ensures Outcome(Snapshot(), reply) == Routes.LogUserTime(old(Snapshot()), authorization, verify, durationSeconds)
      ensures Valid()
    {
      Properties.UserTimeKeepsValid(Snapshot(), authorization, verify, durationSeconds);
      var auth := StrictAuth(authorization, verify);
      if auth.Rejected? {
        return Reply(auth.status, Note(Denied(auth.reason)));
      }
      if !PositiveDuration(durationSeconds) {
        return Reply(400, Note(InvalidData));
      }
      match LoggedIn(auth) {
        case Some(uid) =>
          if uid in reports {
            var r := reports[uid];
            reports := reports[uid := r.(totalTimeOnPageSeconds := r.totalTimeOnPageSeconds + durationSeconds.value)];
          }
        case None =>
      }
      reply := Reply(204, NoBody);
    }

    method TrackReferrer(referrer: Option<string>, parsedHost: Option<string>) returns (reply: Reply)
      requires Valid()
      modifies this
      ensures Outcome(Snapshot(), reply) == Routes.TrackReferrer(old(Snapshot()), referrer, parsedHost)
      ensures Valid()
    {
      referrers := Referrer.Record(referrers, Referrer.Classify(referrer, parsedHost));
      reply := Reply(200, NoBody);
    }

    // ------------------------------------------------------------ admin

    /** The reset empties every collection; ids already handed out are never reused. */
    method ResetData(password: Option<string>, adminPassword: Option<string>) returns (reply: Reply)
      requires Valid()
      modifies this
      ensures Outcome(Snapshot(), reply) == Routes.ResetData(old(Snapshot()), password, adminPassword)
      ensures Valid()
    {
      if Falsy(password) || Some(password.value) != adminPassword {
        return Reply(401, Note(WrongAdminPassword));
      }
      reply := Reply(200, Cleared(|treasures|, if stats.Some? then 1 else 0, |visitors|,
                                  |referrers|, |users|, |reports|));
      treasures := map[];
      stats := None;
      visitors := map[];
      referrers := map[];
      users := map[];
      reports := map[];
    }

    // ------------------------------------------------------------ accounts

    method Register(body: RegisterBody, digest: string, now: Time) returns (reply: Reply)
      requires Valid()
      modifies this
      ensures Outcome(Snapshot(), reply) == Routes.Register(old(Snapshot()), body, digest, now)
      ensures Valid()
    {
      ghost var start := Snapshot();
      if Falsy(body.username) || Falsy(body.email) || Falsy(body.password) {
        reply := Reply(400, Note(MissingRegistrationFields));
        AccountRules.RegisterOfMissingField(start, body, digest, now);
      } else if Taken(users, body.username.value, body.email.value) {
        reply := Reply(400, Note(UserExists));
        AccountRules.RegisterOfTaken(start, body, digest, now);
      } else {
        var name := Normalize(body.username.value);
        var email := Normalize(body.email.value);
        if name == "" || email == "" || !InEnum(body.gender, Genders) || !InEnum(body.ageRange, AgeRanges) {
          reply := Reply(500, Note(ServerFailure));
          AccountRules.RegisterRefusedByStore(start, body, digest, now);
        } else {
          SaveAccount(User(name, email, digest, body.gender, body.ageRange, body.referral, now, None, None));
          reply := Reply(201, Note(Registered));
          Properties.Enrolled(start, body, digest, now);
        }
      }
      Properties.RegisterKeepsValid(start, body, digest, now);
    }

    /** The two saves of a registration: the account under the next user id, and its zeroed report. */
    method SaveAccount(user: User)
      modifies this
      ensures Snapshot() == old(Snapshot()).(users := old(users)[old(nextUserId) := user],
                                             reports := old(reports)[old(nextUserId) := ZeroReport],
                                             nextUserId := old(nextUserId) + 1)
    {
      var uid := nextUserId;
      users, reports, nextUserId := users[uid := user], reports[uid := ZeroReport], uid + 1;
    }

    /** Login looks the account up by its name as the store holds it; names are unique, so the lookup
        finds the one account the route function speaks of. */
    method Login(username: Option<string>, password: Option<string>,
                 matches: (string, string) -> bool, sign: Claims -> string, now: Time) returns (reply: Reply)
      requires Valid()
      modifies this
      ensures Outcome(Snapshot(), reply) == Routes.Login(old(Snapshot()), username, password, matches, sign, now)
      ensures Valid()
    {
      ghost var start := Snapshot();
      Properties.LoginKeepsValid(start, Env(_ => None, matches, sign, None), username, password, now);
      if Falsy(username) || Falsy(password) {
        return Reply(400, Note(MissingCredentials));
      }
      var name := Normalize(username.value);
      if !exists u :: u in users && users[u].username == name {
        return Reply(401, Note(InvalidCredentials));
      }
      var uid :| uid in users && users[uid].username == name;
      var user := users[uid];
      if !matches(password.value, user.passwordHash) {
        return Reply(401, Note(InvalidCredentials));
      }
      if uid in reports {
        reports := reports[uid := reports[uid].(lastLogin := Some(now))];
      }
      reply := Reply(200, TokenIssued(sign(Claims(Some(uid), user.username)), user.username));
    }

    method ForgotPassword(email: Option<string>, token: string, now: Time, mailSent: bool) returns (reply: Reply)
      requires Valid() && FreshToken(users, token)
      modifies this
      ensures Outcome(Snapshot(), reply) == Routes.ForgotPassword(old(Snapshot()), email, token, now, mailSent)
      ensures Valid()
    {
      Properties.ForgotKeepsValid(Snapshot(), email, token, now, mailSent);
      if email.None? {
        return Reply(500, Note(ServerFailure));
      }
      var address := Normalize(email.value);
      if !exists u :: u in users && users[u].email == address {
        return Reply(200, Note(ResetLinkMaybeSent));
      }
      var uid :| uid in users && users[uid].email == address;
      users := users[uid := users[uid].(resetToken := Some(token), resetExpires := Some(now + ResetTokenLifetime))];
      reply := if mailSent then Reply(200, Note(ResetLinkMaybeSent)) else Reply(500, Note(ServerFailure));
    }

    method ResetPassword(token: string, password: Option<string>, digest: string, now: Time) returns (reply: Reply)
      requires Valid()
      modifies this
      ensures Outcome(Snapshot(), reply) == Routes.ResetPassword(old(Snapshot()), token, password, digest, now)
      ensures Valid()
    {
      Properties.ResetPasswordKeepsValid(Snapshot(), token, password, digest, now);
      if !exists u :: u in users && HoldsLiveToken(users[u], token, now) {
        return Reply(400, Note(InvalidResetToken));
      }
      if Falsy(password) {
        return Reply(500, Note(ServerFailure));
      }
      var uid :| uid in users && HoldsLiveToken(users[uid], token, now);
      users := users[uid := users[uid].(passwordHash := digest, resetToken := None, resetExpires := None)];
      reply := Reply(200, Note(PasswordChanged));
    }

    // ------------------------------------------------------------ dispatch

    /** One request, routed to its handler. The store invariant holds after it, no counter
        fell unless it was the admin reset, and user ids never go back. */
    method Handle(env: Env, req: Request, now: Time) returns (reply: Reply)
      requires Valid() && Issued(env.verify, nextUserId) && Admissible(Snapshot(), req)
      modifies this
      ensures Outcome(Snapshot(), reply) == Step(old(Snapshot()), env, req, now)
      ensures Valid() && Issued(env.verify, nextUserId)
      ensures !req.ResetDataReq? ==> Properties.Grows(old(Snapshot()), Snapshot())
    {
      ghost var start := Snapshot();
      Properties.StepKeepsValid(start, env, req, now);
      if !req.ResetDataReq? {
        Properties.StepGrows(start, env, req, now);
      }
      if req.ListReq? || req.CreateReq? || req.ClaimReq? || req.OpenedAppReq? {
        reply := HandleTreasureRequest(env, req, now);
      } else if req.RegisterReq? || req.LoginReq? || req.VerifyReq? || req.ForgotReq? || req.ResetPasswordReq? {
        reply := HandleAccountRequest(env, req, now);
      } else {
        reply := HandleOtherRequest(env, req, now);
      }
      Properties.IssuedMonotone(env.verify, start.nextUserId, nextUserId);
    }

    /** The coupon routes. */
    method HandleTreasureRequest(env: Env, req: Request, now: Time) returns (reply: Reply)
      requires Valid() && Issued(env.verify, nextUserId)
      requires req.ListReq? || req.CreateReq? || req.ClaimReq? || req.OpenedAppReq?
      modifies this
      ensures Outcome(Snapshot(), reply) == Step(old(Snapshot()), env, req, now)
    {
      match req {
        case ListReq(ctx) => reply := ListTreasures(ctx, now);
        case CreateReq(ctx, body) => reply := CreateTreasure(ctx, env.verify, body, now);
        case ClaimReq(ctx, target) => reply := ClaimTreasure(ctx, env.verify, target, now);
        case OpenedAppReq(ctx) => reply := OpenedApp(ctx, env.verify, now);
      }
    }

    /** The account routes. */
    method HandleAccountRequest(env: Env, req: Request, now: Time) returns (reply: Reply)
      requires Valid() && Admissible(Snapshot(), req)
      requires req.RegisterReq? || req.LoginReq? || req.VerifyReq? || req.ForgotReq? || req.ResetPasswordReq?
      modifies this
      ensures Outcome(Snapshot(), reply) == Step(old(Snapshot()), env, req, now)
    {
      match req {
        case RegisterReq(body, digest) => reply := Register(body, digest, now);
        case LoginReq(u, pw) => reply := Login(u, pw, env.matches, env.sign, now);
        case VerifyReq(a) => reply := Routes.VerifyToken(Snapshot(), a, env.verify).reply;
        case ForgotReq(email, token, sent) => reply := ForgotPassword(email, token, now, sent);
        case ResetPasswordReq(token, pw, digest) => reply := ResetPassword(token, pw, digest, now);
      }
    }

    /** Time logging, referrers, stats and the admin routes. */
    method HandleOtherRequest(env: Env, req: Request, now: Time) returns (reply: Reply)
      requires Valid() && Issued(env.verify, nextUserId)
      requires !(req.ListReq? || req.CreateReq? || req.ClaimReq? || req.OpenedAppReq?)
      requires !(req.RegisterReq? || req.LoginReq? || req.VerifyReq? || req.ForgotReq? || req.ResetPasswordReq?)
      modifies this
      ensures Outcome(Snapshot(), reply) == Step(old(Snapshot()), env, req, now)
    {
      match req {
        case VisitorTimeReq(ip, d) => reply := LogVisitorTime(ip, d);
        case UserTimeReq(a, d) => reply := LogUserTime(a, env.verify, d);
        case ReferrerReq(r, h) => reply := TrackReferrer(r, h);
        case StatsReq => reply := Routes.GetStats(Snapshot()).reply;
        case AdminListReq => reply := Routes.AdminTreasures(Snapshot()).reply;
        case AdminGetReq(target) => reply := Routes.AdminTreasure(Snapshot(), target).reply;
        case ResetDataReq(pw) => reply := ResetData(pw, env.adminPassword);
      }
    }
  }
}
