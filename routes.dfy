/** The routes of the server as transitions of an abstract store: each takes the store and
    a request and gives the new store and the reply. Middlewares that run before a handler
    (`trackVisitor`, `countApiCall`, the token checks) are part of the route's effect, in the
    order the route lists them. */
module Routes {
  import opened Common
  import opened Text
  import opened Auth
  import opened Documents
  import Referrer
  import Pagination

  /** The collections. `nextTreasureId` and `nextUserId` stand for the store's id generator:
      every id it has handed out is below them, and they are never reset. */
  datatype Db = Db(
    treasures: map<TreasureId, Treasure>,
    stats: Option<GlobalStats>,
    visitors: map<string, Visitor>,
    referrers: map<string, Referrer.ReferrerStat>,
    users: map<UserId, User>,
    reports: map<UserId, Report>,
    nextTreasureId: TreasureId,
    nextUserId: UserId)

  const EmptyDb: Db := Db(map[], None, map[], map[], map[], map[], 0, 0)

  /** What a request carries besides its body: the original URL, the Authorization header,
      the client address (`req.ip`), the user agent and UAParser's reading of it. */
  datatype Context = Context(url: string, authorization: Option<string>, ip: Option<string>,
                             userAgent: Option<string>, device: string)

  /** The path parameter of `/api/treasures/:id`: a well-formed ObjectId, or a string that
      the store cannot cast to one. */
  datatype IdParam = WellFormed(id: TreasureId) | Malformed

  datatype Msg =
    | Denied(reason: Denial)
    | ValidationFailed | CouponNotFound | InvalidCouponId | ServerFailure | InvalidData
    | MissingRegistrationFields | UserExists | Registered
    | MissingCredentials | InvalidCredentials | UserNotFound
    | ResetLinkMaybeSent | InvalidResetToken | PasswordChanged
    | WrongAdminPassword

  datatype Payload =
    | Note(msg: Msg)
    | Doc(id: TreasureId, treasure: Treasure)
    | Listing(available: map<TreasureId, Treasure>)
    | TokenIssued(token: string, username: string)
    | Account(username: string)
    | StatsDoc(stats: Option<GlobalStats>)
    | VisitorPage(page: Pagination.Page<Visitor>)
    | Cleared(treasuresDeleted: nat, statsDeleted: nat, visitorsDeleted: nat, referrersDeleted: nat,
              usersDeleted: nat, reportsDeleted: nat)
    | NoBody

  datatype Reply = Reply(status: nat, payload: Payload)

  datatype Outcome = Outcome(db: Db, reply: Reply)

  // ---------------------------------------------------------------- invariants

  /** The treasure box invariant: remaining never exceeds total, and a treasure rests at zero
      or below only if it was created that way and never claimed. */
  predicate BoxesOk(t: Treasure) {
    t.remainingBoxes <= t.totalBoxes && (t.remainingBoxes >= 1 || t.remainingBoxes == t.totalBoxes)
  }

  predicate UniqueAccounts(users: map<UserId, User>) {
    forall u, v :: u in users && v in users && u != v ==>
      users[u].username != users[v].username && users[u].email != users[v].email
      && (users[u].resetToken.Some? ==> users[u].resetToken != users[v].resetToken)
  }

  ghost predicate Valid(db: Db) {
    && (forall id :: id in db.treasures ==> id < db.nextTreasureId && BoxesOk(db.treasures[id]))
    && (forall u :: u in db.users ==> u < db.nextUserId)
    && (forall u :: u in db.reports ==> u < db.nextUserId)
    && UniqueAccounts(db.users)
  }

  /** Tokens are signed with the server's secret, so every token that verifies names an id
      the store has handed out. */
  ghost predicate Issued(verify: string -> Option<Claims>, nextUserId: UserId) {
    forall t :: verify(t).Some? && verify(t).value.id.Some? ==> verify(t).value.id.value < nextUserId
  }

  // ---------------------------------------------------------------- middlewares

  function StatsOf(db: Db): GlobalStats {
    db.stats.GetOr(ZeroStats)
  }

  /** `countApiCall(name)`: upsert the singleton, increment the counter, and set the timestamp
      that `TimestampFor` selects for the name. */
  function CountApiCall(db: Db, c: Counter, now: Time): (r: Db)
    ensures r == db.(stats := r.stats) && r.stats.Some?
    ensures Count(StatsOf(r), c) == Count(StatsOf(db), c) + 1
    ensures forall d :: d != c ==> Count(StatsOf(r), d) == Count(StatsOf(db), d)
  {
    var stamp := if TimestampFor(CounterName(c)).Some? then Some(now) else None;
    db.(stats := Some(Bump(StatsOf(db), c, stamp)))
  }

  /** `trackVisitor`: upsert the caller's visitor document, unless the request has no address.
      The caller's document (a fresh one stamped `now` if there was none) counts one more visit,
      last seen `now`, with the user agent and device of this request, and one more creation or
      opening when `VisitorCounterFor` picks that counter; every other document is untouched. */
  function TrackVisitor(db: Db, ctx: Context, verb: string, now: Time): (r: Db)
    ensures r == db.(visitors := r.visitors)
    ensures Falsy(ctx.ip) ==> r == db
    ensures !Falsy(ctx.ip) ==> r.visitors.Keys == db.visitors.Keys + {ctx.ip.value}
    ensures !Falsy(ctx.ip) ==> forall a :: a in db.visitors && a != ctx.ip.value ==> r.visitors[a] == db.visitors[a]
    ensures !Falsy(ctx.ip) ==>
      var before := if ctx.ip.value in db.visitors then db.visitors[ctx.ip.value] else NewVisitor(now);
      var after := r.visitors[ctx.ip.value];
      var extra := VisitorCounterFor(verb, ctx.url);
      && after.visitCount == before.visitCount + 1 && after.lastVisit == now && after.firstVisit == before.firstVisit
      && after.userAgent == ctx.userAgent && after.device == Some(ctx.device)
      && after.treasuresCreatedCount == before.treasuresCreatedCount + (if extra == Some(TreasuresCreated) then 1 else 0)
      && after.treasuresOpenedCount == before.treasuresOpenedCount + (if extra == Some(TreasuresOpened) then 1 else 0)
      && after.appOpenCount == before.appOpenCount && after.totalTimeOnPageSeconds == before.totalTimeOnPageSeconds
  {
    if Falsy(ctx.ip) then db
    else
      var ip := ctx.ip.value;
      var v := if ip in db.visitors then db.visitors[ip] else NewVisitor(now);
      db.(visitors := db.visitors[ip := Visit(v, ctx.userAgent, ctx.device, VisitorCounterFor(verb, ctx.url), now)])
  }

  function EnsureReport(reports: map<UserId, Report>, uid: UserId): Report {
    if uid in reports then reports[uid] else ZeroReport
  }

  // ---------------------------------------------------------------- treasures

  /** The documents the store returns for `{ remainingBoxes: { $gt: 0 } }`. */
  function Available(treasures: map<TreasureId, Treasure>): (r: map<TreasureId, Treasure>)
    ensures forall id :: id in r <==> id in treasures && treasures[id].remainingBoxes > 0
    ensures forall id :: id in r ==> r[id] == treasures[id]
  {
    map id | id in treasures && treasures[id].remainingBoxes > 0 :: treasures[id]
  }

  /** GET /api/treasures: trackVisitor, countApiCall('appOpenCount'), then the listing. */
  function ListTreasures(db: Db, ctx: Context, now: Time): (o: Outcome)
    ensures o.db.treasures == db.treasures
    ensures o.reply == Reply(200, Listing(Available(db.treasures)))
  {
    var db1 := TrackVisitor(db, ctx, "GET", now);
    var db2 := CountApiCall(db1, AppOpen, now);
    Outcome(db2, Reply(200, Listing(Available(db2.treasures))))
  }

  /** The creator's body: text fields, coordinates and the box count, as Mongoose casts them. */
  datatype CreateBody = CreateBody(place: Placement, lat: NumberField<real>, lng: NumberField<real>,
                                   totalBoxes: NumberField<int>)

  /** POST /api/treasures: optionalAuth, trackVisitor, countApiCall('treasuresCreatedCount'),
      then the handler. */
  function CreateTreasure(db: Db, ctx: Context, verify: string -> Option<Claims>, body: CreateBody, now: Time): Outcome {
    var auth := OptionalAuth(ctx.authorization, verify);
    if auth.Rejected? then Outcome(db, Reply(auth.status, Note(Denied(auth.reason))))
    else CreateHandler(CountApiCall(TrackVisitor(db, ctx, "POST", now), TreasuresCreated, now), LoggedIn(auth), body)
  }

  /** The handler: save the treasure, then bump a logged-in creator's placed counter (upserted). */
  function CreateHandler(db: Db, caller: Option<UserId>, body: CreateBody): Outcome {
    if !(Castable(body.lat) && Castable(body.lng) && Castable(body.totalBoxes)) then
      Outcome(db, Reply(400, Note(ValidationFailed)))
    else
      var id := db.nextTreasureId;
      var t := NewTreasure(body.place.(lat := AsOption(body.lat), lng := AsOption(body.lng)), body.totalBoxes);
      var db1 := db.(treasures := db.treasures[id := t], nextTreasureId := id + 1);
      var db2 :=
        match caller
        case None => db1
        case Some(uid) =>
          var r := EnsureReport(db1.reports, uid);
          db1.(reports := db1.reports[uid := r.(treasuresPlaced := r.treasuresPlaced + 1)]);
      Outcome(db2, Reply(201, Doc(id, t)))
  }

  /** PATCH /api/treasures/:id: optionalAuth, trackVisitor, countApiCall('treasuresOpenedCount'),
      then the handler. */
  function ClaimTreasure(db: Db, ctx: Context, verify: string -> Option<Claims>, id: IdParam, now: Time): Outcome {
    var auth := OptionalAuth(ctx.authorization, verify);
    if auth.Rejected? then Outcome(db, Reply(auth.status, Note(Denied(auth.reason))))
    else ClaimHandler(CountApiCall(TrackVisitor(db, ctx, "PATCH", now), TreasuresOpened, now), LoggedIn(auth), id, now)
  }

  /** The handler: the atomic decrement (an uncastable id fails here), the claimer's report
      (upserted), then on exhaustion the completed counter and the deletion. The reply carries
      the post-decrement document. */
  function ClaimHandler(db: Db, caller: Option<UserId>, id: IdParam, now: Time): Outcome {
    match id
    case Malformed => Outcome(db, Reply(400, Note(InvalidCouponId)))
    case WellFormed(n) =>
      if n !in db.treasures then Outcome(db, Reply(404, Note(CouponNotFound)))
      else
        var t := db.treasures[n].(remainingBoxes := db.treasures[n].remainingBoxes - 1);
        var db1 := db.(treasures := db.treasures[n := t]);
        var db2 :=
          match caller
          case None => db1
          case Some(uid) =>
            var r := EnsureReport(db1.reports, uid);
            db1.(reports := db1.reports[uid := r.(treasuresClaimed := r.treasuresClaimed + 1)]);
        var db3 :=
          if t.remainingBoxes <= 0 then
            db2.(stats := Some(Bump(StatsOf(db2), TreasuresCompleted, Some(now))),
                 treasures := db2.treasures - {n})
          else db2;
        Outcome(db3, Reply(200, Doc(n, t)))
  }

  // ---------------------------------------------------------------- visitors and stats

  /** POST /api/visitors/opened-app: optionalAuth, then the visitor's app-open counter (upserted)
      and, for a logged-in caller, the report's (not upserted). */
  function OpenedApp(db: Db, ctx: Context, verify: string -> Option<Claims>, now: Time): Outcome {
    var auth := OptionalAuth(ctx.authorization, verify);
    if auth.Rejected? then Outcome(db, Reply(auth.status, Note(Denied(auth.reason))))
    else Outcome(CountReportAppOpen(CountVisitorAppOpen(db, ctx.ip, now), LoggedIn(auth), now), Reply(200, NoBody))
  }

  /** The first part of the opened-app route: the visitor by address, upserted. */
  function CountVisitorAppOpen(db: Db, ip: Option<string>, now: Time): Db {
    if Falsy(ip) then db
    else
      var v := if ip.value in db.visitors then db.visitors[ip.value] else NewVisitor(now);
      db.(visitors := db.visitors[ip.value := v.(appOpenCount := v.appOpenCount + 1)])
  }

  /** The second part: a logged-in caller's report, when there is one. */
  function CountReportAppOpen(db: Db, caller: Option<UserId>, now: Time): Db {
    match caller
    case Some(uid) =>
      if uid in db.reports then
        db.(reports := db.reports[uid := db.reports[uid].(appOpenCount := db.reports[uid].appOpenCount + 1,
                                                       lastAppOpen := Some(now))])
      else db
    case None => db
  }

  /** `durationSeconds` as the handlers test it: a number (None otherwise) that is positive. */
  predicate PositiveDuration(d: Option<int>) {
    d.Some? && d.value > 0
  }

  /** PATCH /api/visitors/log-time: adds the duration to an existing visitor (no upsert). */
  function LogVisitorTime(db: Db, ip: Option<string>, durationSeconds: Option<int>): Outcome {
    if Falsy(ip) || !PositiveDuration(durationSeconds) then Outcome(db, Reply(400, Note(InvalidData)))
    else if ip.value in db.visitors then
      var v := db.visitors[ip.value];
      Outcome(db.(visitors := db.visitors[ip.value := v.(totalTimeOnPageSeconds := v.totalTimeOnPageSeconds + durationSeconds.value)]),
              Reply(204, NoBody))
    else Outcome(db, Reply(204, NoBody))
  }

  /** PATCH /api/users/log-time: authMiddleware, then adds the duration to an existing report. */
  function LogUserTime(db: Db, authorization: Option<string>, verify: string -> Option<Claims>, durationSeconds: Option<int>): Outcome {
    var auth := StrictAuth(authorization, verify);
    if auth.Rejected? then Outcome(db, Reply(auth.status, Note(Denied(auth.reason))))
    else
      if !PositiveDuration(durationSeconds) then Outcome(db, Reply(400, Note(InvalidData)))
      else
        match LoggedIn(auth)
        case Some(uid) =>
          if uid in db.reports then
            var r := db.reports[uid];
            Outcome(db.(reports := db.reports[uid := r.(totalTimeOnPageSeconds := r.totalTimeOnPageSeconds + durationSeconds.value)]),
                    Reply(204, NoBody))
          else Outcome(db, Reply(204, NoBody))
        case None => Outcome(db, Reply(204, NoBody))
  }

  /** POST /api/stats/track-referrer. */
  function TrackReferrer(db: Db, referrer: Option<string>, parsedHost: Option<string>): Outcome {
    Outcome(db.(referrers := Referrer.Record(db.referrers, Referrer.Classify(referrer, parsedHost))), Reply(200, NoBody))
  }

  /** GET /api/stats: the singleton, or `{}` when it does not exist yet. */
  function GetStats(db: Db): Outcome {
    Outcome(db, Reply(200, StatsDoc(db.stats)))
  }

  // ---------------------------------------------------------------- admin

  /** GET /api/admin/treasures (the sort by placement date is not modelled). */
  function AdminTreasures(db: Db): Outcome {
    Outcome(db, Reply(200, Listing(Available(db.treasures))))
  }

  /** GET /api/admin/treasures/:id: an uncastable id falls into the generic handler (500). */
  function AdminTreasure(db: Db, id: IdParam): Outcome {
    match id
    case Malformed => Outcome(db, Reply(500, Note(ServerFailure)))
    case WellFormed(n) =>
      if n in db.treasures then Outcome(db, Reply(200, Doc(n, db.treasures[n])))
      else Outcome(db, Reply(404, Note(CouponNotFound)))
  }

  /** `order` lists every visitor address once, most recent `lastVisit` first: the store's sort. */
  ghost predicate VisitorOrder(visitors: map<string, Visitor>, order: seq<string>) {
    && (forall k :: 0 <= k < |order| ==> order[k] in visitors)
    && (forall ip :: ip in visitors ==> ip in order)
    && (forall j, k :: 0 <= j < k < |order| ==> order[j] != order[k])
    && (forall j, k :: 0 <= j < k < |order| ==> visitors[order[j]].lastVisit >= visitors[order[k]].lastVisit)
  }

  /** GET /api/admin/visitors?page&limit, given the sorted order of the collection. */
  function AdminVisitors(db: Db, order: seq<string>, pageQuery: Option<int>, limitQuery: Option<int>): Outcome
    requires VisitorOrder(db.visitors, order)
  {
    var sorted := seq(|order|, k requires 0 <= k < |order| => db.visitors[order[k]]);
    match Pagination.Paginate(sorted, pageQuery, limitQuery)
    case None => Outcome(db, Reply(500, Note(ServerFailure)))
    case Some(p) => Outcome(db, Reply(200, VisitorPage(p)))
  }

  /** DELETE /api/admin/reset-data: with the configured password, every collection is emptied. */
  function ResetData(db: Db, password: Option<string>, adminPassword: Option<string>): Outcome {
    if Falsy(password) || Some(password.value) != adminPassword then Outcome(db, Reply(401, Note(WrongAdminPassword)))
    else
      Outcome(EmptyDb.(nextTreasureId := db.nextTreasureId, nextUserId := db.nextUserId),
              Reply(200, Cleared(|db.treasures|, if db.stats.Some? then 1 else 0, |db.visitors|,
                                 |db.referrers|, |db.users|, |db.reports|)))
  }

  // ---------------------------------------------------------------- accounts

  datatype RegisterBody = RegisterBody(username: Option<string>, email: Option<string>, password: Option<string>,
                                       gender: Option<string>, ageRange: Option<string>, referral: Option<string>)

  /** The pre-check of registration: an account whose stored email or username equals the
      input as the store would hold it. The route lowercases the input, and Mongoose runs the
      field's `trim` and `lowercase` setters on a query's filter values (inside `$or` too), so the
      value compared is `Normalize(Lower(x))`, which is `Normalize(x)` (`Text.NormalizeLower`).
      Login and the reset request look accounts up the same way. */
  predicate Taken(users: map<UserId, User>, username: string, email: string) {
    exists u :: u in users && (users[u].email == Normalize(email) || users[u].username == Normalize(username))
  }

  /** Every guard of registration lets the body through, so the account is saved. */
  predicate Saves(db: Db, body: RegisterBody) {
    && !Falsy(body.username) && !Falsy(body.email) && !Falsy(body.password)
    && !Taken(db.users, body.username.value, body.email.value)
    && var name := Normalize(body.username.value); var email := Normalize(body.email.value);
       name != "" && email != "" && InEnum(body.gender, Genders) && InEnum(body.ageRange, AgeRanges)
  }

  /** POST /api/auth/register. `digest` is what bcrypt makes of the password. A document that
      fails the schema's validators (a value that trims to nothing, a value outside an enum) is
      not saved and the reply is 500. Past the pre-check the unique indexes cannot clash, since
      the pre-check compares the very values they index. */
  function Register(db: Db, body: RegisterBody, digest: string, now: Time): Outcome {
    if Falsy(body.username) || Falsy(body.email) || Falsy(body.password) then
      Outcome(db, Reply(400, Note(MissingRegistrationFields)))
    else if Taken(db.users, body.username.value, body.email.value) then
      Outcome(db, Reply(400, Note(UserExists)))
    else
      var name := Normalize(body.username.value);
      var email := Normalize(body.email.value);
      if name == "" || email == "" || !InEnum(body.gender, Genders) || !InEnum(body.ageRange, AgeRanges) then
        Outcome(db, Reply(500, Note(ServerFailure)))
      else
        var uid := db.nextUserId;
        var user := User(name, email, digest, body.gender, body.ageRange, body.referral, now, None, None);
        Outcome(db.(users := db.users[uid := user], reports := db.reports[uid := ZeroReport], nextUserId := uid + 1),
                Reply(201, Note(Registered)))
  }

  /** `findOne` by username: an account storing exactly this name, if any. */
  ghost function FindByName(users: map<UserId, User>, name: string): (r: Option<UserId>)
    ensures r.Some? ==> r.value in users && users[r.value].username == name
    ensures r.None? <==> forall u :: u in users ==> users[u].username != name
  {
    if exists u :: u in users && users[u].username == name then
      var u :| u in users && users[u].username == name; Some(u)
    else None
  }

  /** `findOne` by email: an account storing exactly this email, if any. */
  ghost function FindByEmail(users: map<UserId, User>, email: string): (r: Option<UserId>)
    ensures r.Some? ==> r.value in users && users[r.value].email == email
    ensures r.None? <==> forall u :: u in users ==> users[u].email != email
  {
    if exists u :: u in users && users[u].email == email then
      var u :| u in users && users[u].email == email; Some(u)
    else None
  }

  /** POST /api/auth/login. `matches` is bcrypt's compare, `sign` issues the token. */
  ghost function Login(db: Db, username: Option<string>, password: Option<string>,
                 matches: (string, string) -> bool, sign: Claims -> string, now: Time): Outcome
  {
    if Falsy(username) || Falsy(password) then Outcome(db, Reply(400, Note(MissingCredentials)))
    else if FindByName(db.users, Normalize(username.value)).None? then
      Outcome(db, Reply(401, Note(InvalidCredentials)))
    else
      var uid := FindByName(db.users, Normalize(username.value)).value;
      var user := db.users[uid];
      if !matches(password.value, user.passwordHash) then Outcome(db, Reply(401, Note(InvalidCredentials)))
      else
        var db1 :=
          if uid in db.reports then db.(reports := db.reports[uid := db.reports[uid].(lastLogin := Some(now))])
          else db;
        Outcome(db1, Reply(200, TokenIssued(sign(Claims(Some(uid), user.username)), user.username)))
  }

  /** GET /api/auth/verify: authMiddleware, then the account the token names. */
  function VerifyToken(db: Db, authorization: Option<string>, verify: string -> Option<Claims>): Outcome {
    var auth := StrictAuth(authorization, verify);
    if auth.Rejected? then Outcome(db, Reply(auth.status, Note(Denied(auth.reason))))
    else
      match LoggedIn(auth)
      case Some(uid) =>
        if uid in db.users then Outcome(db, Reply(200, Account(db.users[uid].username)))
        else Outcome(db, Reply(404, Note(UserNotFound)))
      case None => Outcome(db, Reply(404, Note(UserNotFound)))
  }

  /** POST /api/auth/forgot-password. `token` is the fresh random token, `mailSent` whether the
      mail relay accepted the message. The token is saved before the mail is sent. */
  ghost function ForgotPassword(db: Db, email: Option<string>, token: string, now: Time, mailSent: bool): Outcome {
    if email.None? then Outcome(db, Reply(500, Note(ServerFailure)))
    else if FindByEmail(db.users, Normalize(email.value)).None? then
      Outcome(db, Reply(200, Note(ResetLinkMaybeSent)))
    else
      var uid := FindByEmail(db.users, Normalize(email.value)).value;
      var user := db.users[uid].(resetToken := Some(token), resetExpires := Some(now + ResetTokenLifetime));
      var db1 := db.(users := db.users[uid := user]);
      if mailSent then Outcome(db1, Reply(200, Note(ResetLinkMaybeSent)))
      else Outcome(db1, Reply(500, Note(ServerFailure)))
  }

  /** The query of the reset route: this token, not yet expired. */
  predicate HoldsLiveToken(u: User, token: string, now: Time) {
    u.resetToken == Some(token) && u.resetExpires.Some? && u.resetExpires.value > now
  }

  /** POST /api/auth/reset-password/:token. `digest` is what bcrypt makes of the new password. */
  ghost function ResetPassword(db: Db, token: string, password: Option<string>, digest: string, now: Time): Outcome {
    if !exists u :: u in db.users && HoldsLiveToken(db.users[u], token, now) then
      Outcome(db, Reply(400, Note(InvalidResetToken)))
    else if Falsy(password) then Outcome(db, Reply(500, Note(ServerFailure)))
    else
      var uid :| uid in db.users && HoldsLiveToken(db.users[uid], token, now);
      var user := db.users[uid].(passwordHash := digest, resetToken := None, resetExpires := None);
      Outcome(db.(users := db.users[uid := user]), Reply(200, Note(PasswordChanged)))
  }

  // ---------------------------------------------------------------- the server as a whole

  /** What is fixed for the process: the token verifier and signer (one secret), bcrypt's
      compare, and the configured admin reset password. */
  datatype Env = Env(verify: string -> Option<Claims>, matches: (string, string) -> bool,
                     sign: Claims -> string, adminPassword: Option<string>)

  /** One request to a route that can change the store, or a read-only one. Oracle answers
      that differ per request (the parsed hostname, a bcrypt digest, a fresh token, the mail
      relay's verdict) travel with it. */
  datatype Request =
    | ListReq(ctx: Context)
    | CreateReq(ctx: Context, body: CreateBody)
    | ClaimReq(ctx: Context, target: IdParam)
    | OpenedAppReq(ctx: Context)
    | VisitorTimeReq(ip: Option<string>, duration: Option<int>)
    | UserTimeReq(authorization: Option<string>, duration: Option<int>)
    | ReferrerReq(referrer: Option<string>, parsedHost: Option<string>)
    | StatsReq
    | AdminListReq
    | AdminGetReq(target: IdParam)
    | ResetDataReq(password: Option<string>)
    | RegisterReq(reg: RegisterBody, digest: string)
    | LoginReq(username: Option<string>, password: Option<string>)
    | VerifyReq(authorization: Option<string>)
    | ForgotReq(email: Option<string>, token: string, mailSent: bool)
    | ResetPasswordReq(token: string, newPassword: Option<string>, digest: string)

  ghost function Step(db: Db, env: Env, req: Request, now: Time): Outcome {
    match req
    case ListReq(ctx) => ListTreasures(db, ctx, now)
    case CreateReq(ctx, body) => CreateTreasure(db, ctx, env.verify, body, now)
    case ClaimReq(ctx, target) => ClaimTreasure(db, ctx, env.verify, target, now)
    case OpenedAppReq(ctx) => OpenedApp(db, ctx, env.verify, now)
    case VisitorTimeReq(ip, d) => LogVisitorTime(db, ip, d)
    case UserTimeReq(a, d) => LogUserTime(db, a, env.verify, d)
    case ReferrerReq(r, h) => TrackReferrer(db, r, h)
    case StatsReq => GetStats(db)
    case AdminListReq => AdminTreasures(db)
    case AdminGetReq(target) => AdminTreasure(db, target)
    case ResetDataReq(pw) => ResetData(db, pw, env.adminPassword)
    case RegisterReq(body, digest) => Register(db, body, digest, now)
    case LoginReq(u, pw) => Login(db, u, pw, env.matches, env.sign, now)
    case VerifyReq(a) => VerifyToken(db, a, env.verify)
    case ForgotReq(email, token, sent) => ForgotPassword(db, email, token, now, sent)
    case ResetPasswordReq(token, pw, digest) => ResetPassword(db, token, pw, digest, now)
  }

  /** `crypto.randomBytes` does not repeat: a new reset token is held by no account. */
  predicate FreshToken(users: map<UserId, User>, token: string) {
    forall u :: u in users ==> users[u].resetToken != Some(token)
  }

  predicate Admissible(db: Db, req: Request) {
    req.ForgotReq? ==> FreshToken(db.users, req.token)
  }

  datatype Call = Call(req: Request, now: Time)

  ghost function Run(db: Db, env: Env, calls: seq<Call>): Db
    decreases |calls|
  {
    if calls == [] then db
    else Run(Step(db, env, calls[0].req, calls[0].now).db, env, calls[1..])
  }

  ghost predicate RunAdmissible(db: Db, env: Env, calls: seq<Call>)
    decreases |calls|
  {
    calls == [] ||
    (Admissible(db, calls[0].req) && RunAdmissible(Step(db, env, calls[0].req, calls[0].now).db, env, calls[1..]))
  }
}
