/** The coupon registry and claim settlement: what one create or claim does, and what a
    sequence of claims on one coupon does. */
module TreasureRules {
  import opened Common
  import opened Text
  import opened Auth
  import opened Documents
  import opened Routes

  predicate Admitted(ctx: Context, verify: string -> Option<Claims>) {
    !OptionalAuth(ctx.authorization, verify).Rejected?
  }

  function Completed(db: Db): nat {
    Count(StatsOf(db), TreasuresCompleted)
  }

  function Opened(db: Db): nat {
    Count(StatsOf(db), TreasuresOpened)
  }

  /** The middlewares touch only the visitor and stats documents. */
  lemma MiddlewaresKeepTreasures(db: Db, ctx: Context, verb: string, c: Counter, now: Time)
    ensures var m := CountApiCall(TrackVisitor(db, ctx, verb, now), c, now);
      m.treasures == db.treasures && m.reports == db.reports && m.nextTreasureId == db.nextTreasureId
      && Count(StatsOf(m), c) == Count(StatsOf(db), c) + 1
      && forall d :: d != c ==> Count(StatsOf(m), d) == Count(StatsOf(db), d)
  {
  }

  /** A claim on an existing coupon takes exactly one box and returns the post-decrement
      document; the coupon is deleted and the completed counter rises by one exactly when
      that leaves no box. */
  lemma {:induction false} ClaimOfExisting(db: Db, ctx: Context, verify: string -> Option<Claims>, n: TreasureId, now: Time)
    requires Admitted(ctx, verify) && n in db.treasures
    ensures var o := ClaimTreasure(db, ctx, verify, WellFormed(n), now);
      var t := db.treasures[n].(remainingBoxes := db.treasures[n].remainingBoxes - 1);
      && o.reply == Reply(200, Doc(n, t))
      && (n in o.db.treasures <==> t.remainingBoxes > 0)
      && o.db.treasures == (if t.remainingBoxes > 0 then db.treasures[n := t] else db.treasures - {n})
      && Completed(o.db) == Completed(db) + (if t.remainingBoxes <= 0 then 1 else 0)
      && Opened(o.db) == Opened(db) + 1
  {
    var m := CountApiCall(TrackVisitor(db, ctx, "PATCH", now), TreasuresOpened, now);
    MiddlewaresKeepTreasures(db, ctx, "PATCH", TreasuresOpened, now);
    HandlerClaimOfExisting(m, LoggedIn(OptionalAuth(ctx.authorization, verify)), n, now);
  }

  /** The claim handler alone, on an existing coupon. */
  lemma HandlerClaimOfExisting(db: Db, caller: Option<UserId>, n: TreasureId, now: Time)
    requires n in db.treasures
    ensures var o := ClaimHandler(db, caller, WellFormed(n), now);
      var t := db.treasures[n].(remainingBoxes := db.treasures[n].remainingBoxes - 1);
      && o.reply == Reply(200, Doc(n, t))
      && o.db.treasures == (if t.remainingBoxes > 0 then db.treasures[n := t] else db.treasures - {n})
      && Completed(o.db) == Completed(db) + (if t.remainingBoxes <= 0 then 1 else 0)
      && Opened(o.db) == Opened(db)
      && o.db.reports == match caller
         case None => db.reports
         case Some(uid) =>
           db.reports[uid := EnsureReport(db.reports, uid).(treasuresClaimed := EnsureReport(db.reports, uid).treasuresClaimed + 1)]
  {
  }

  /** A claim on an id that matches no coupon is NotFound (404) and changes no coupon; the
      counting middlewares still ran. */
  lemma ClaimOfAbsent(db: Db, ctx: Context, verify: string -> Option<Claims>, n: TreasureId, now: Time)
    requires Admitted(ctx, verify) && n !in db.treasures
    ensures var o := ClaimTreasure(db, ctx, verify, WellFormed(n), now);
      o.reply == Reply(404, Note(CouponNotFound)) && o.db.treasures == db.treasures
      && o.db.reports == db.reports && Completed(o.db) == Completed(db) && Opened(o.db) == Opened(db) + 1
  {
    MiddlewaresKeepTreasures(db, ctx, "PATCH", TreasuresOpened, now);
  }

  /** An uncastable id is InvalidId (400), never NotFound; the counting middlewares still ran. */
  lemma ClaimOfMalformed(db: Db, ctx: Context, verify: string -> Option<Claims>, now: Time)
    requires Admitted(ctx, verify)
    ensures var o := ClaimTreasure(db, ctx, verify, Malformed, now);
      o.reply == Reply(400, Note(InvalidCouponId)) && o.db.treasures == db.treasures
      && o.db.reports == db.reports && Completed(o.db) == Completed(db) && Opened(o.db) == Opened(db) + 1
  {
    MiddlewaresKeepTreasures(db, ctx, "PATCH", TreasuresOpened, now);
  }

  /** A token that does not verify stops the request before any middleware counts it. */
  lemma ClaimRefused(db: Db, ctx: Context, verify: string -> Option<Claims>, id: IdParam, now: Time)
    requires !Admitted(ctx, verify)
    ensures ClaimTreasure(db, ctx, verify, id, now) == Outcome(db, Reply(401, Note(Denied(InvalidOrExpiredToken))))
  {
  }

  /** The claimer's visitor document is upserted and counts the claim when the original URL
      is under /api/treasures/. */
  lemma ClaimCountsVisitor(db: Db, ctx: Context, verify: string -> Option<Claims>, id: IdParam, now: Time)
    requires Admitted(ctx, verify) && !Falsy(ctx.ip) && StartsWith(ctx.url, "/api/treasures/")
    ensures var o := ClaimTreasure(db, ctx, verify, id, now);
      var before := if ctx.ip.value in db.visitors then db.visitors[ctx.ip.value] else NewVisitor(now);
      ctx.ip.value in o.db.visitors
      && o.db.visitors[ctx.ip.value].treasuresOpenedCount == before.treasuresOpenedCount + 1
      && o.db.visitors[ctx.ip.value].visitCount == before.visitCount + 1
  {
  }

  /** A logged-in claimer's report counts the claim (created if missing); a guest's claim
      touches no report. */
  lemma ClaimUpdatesReport(db: Db, ctx: Context, verify: string -> Option<Claims>, n: TreasureId, now: Time)
    requires Admitted(ctx, verify) && n in db.treasures
    ensures var o := ClaimTreasure(db, ctx, verify, WellFormed(n), now);
      match LoggedIn(OptionalAuth(ctx.authorization, verify))
      case None => o.db.reports == db.reports
      case Some(uid) =>
        o.db.reports == db.reports[uid := EnsureReport(db.reports, uid).(treasuresClaimed := EnsureReport(db.reports, uid).treasuresClaimed + 1)]
  {
    var m := CountApiCall(TrackVisitor(db, ctx, "PATCH", now), TreasuresOpened, now);
    MiddlewaresKeepTreasures(db, ctx, "PATCH", TreasuresOpened, now);
    HandlerClaimOfExisting(m, LoggedIn(OptionalAuth(ctx.authorization, verify)), n, now);
  }

  /** A created coupon starts with all its boxes (one when the body gives no count), under a
      fresh id; the created counter rises by one and a logged-in creator's report counts it. */
  lemma CreateOfValidBody(db: Db, ctx: Context, verify: string -> Option<Claims>, body: CreateBody, now: Time)
    requires Valid(db) && Admitted(ctx, verify)
    requires Castable(body.lat) && Castable(body.lng) && Castable(body.totalBoxes)
    ensures var o := CreateTreasure(db, ctx, verify, body, now);
      var id := db.nextTreasureId;
      var boxes := if body.totalBoxes.Given? then body.totalBoxes.value else 1;
      && id !in db.treasures
      && o.reply.status == 201 && o.reply.payload.Doc? && o.reply.payload.id == id
      && o.db.treasures.Keys == db.treasures.Keys + {id}
      && o.db.treasures[id].totalBoxes == boxes && o.db.treasures[id].remainingBoxes == boxes
      && (forall m :: m in db.treasures ==> o.db.treasures[m] == db.treasures[m])
      && Count(StatsOf(o.db), TreasuresCreated) == Count(StatsOf(db), TreasuresCreated) + 1
      && match LoggedIn(OptionalAuth(ctx.authorization, verify))
         case None => o.db.reports == db.reports
         case Some(uid) =>
           o.db.reports == db.reports[uid := EnsureReport(db.reports, uid).(treasuresPlaced := EnsureReport(db.reports, uid).treasuresPlaced + 1)]
  {
    MiddlewaresKeepTreasures(db, ctx, "POST", TreasuresCreated, now);
  }

  /** A body the store cannot cast is refused with 400 and stores nothing, but it was counted. */
  lemma CreateOfUncastableBody(db: Db, ctx: Context, verify: string -> Option<Claims>, body: CreateBody, now: Time)
    requires Admitted(ctx, verify)
    requires !(Castable(body.lat) && Castable(body.lng) && Castable(body.totalBoxes))
    ensures var o := CreateTreasure(db, ctx, verify, body, now);
      o.reply == Reply(400, Note(ValidationFailed)) && o.db.treasures == db.treasures
      && Count(StatsOf(o.db), TreasuresCreated) == Count(StatsOf(db), TreasuresCreated) + 1
  {
    MiddlewaresKeepTreasures(db, ctx, "POST", TreasuresCreated, now);
  }

  // ---------------------------------------------------------------- repeated claims

  /** One claim request: who sends it (address, token, URL) and when. */
  datatype ClaimCall = ClaimCall(ctx: Context, now: Time)

  predicate AllAdmitted(calls: seq<ClaimCall>, verify: string -> Option<Claims>) {
    forall i :: 0 <= i < |calls| ==> Admitted(calls[i].ctx, verify)
  }

  /** The store after the claims `calls` on coupon `n`, served in order. */
  ghost function ClaimRun(db: Db, verify: string -> Option<Claims>, n: TreasureId, calls: seq<ClaimCall>): Db
    decreases |calls|
  {
    if calls == [] then db
    else
      var last := calls[|calls| - 1];
      ClaimTreasure(ClaimRun(db, verify, n, calls[..|calls| - 1]), last.ctx, verify, WellFormed(n), last.now).db
  }

  /** Fewer claims than boxes, from any callers at any times, leave the coupon in place with the
      rest of its boxes and count no completion. */
  lemma {:induction false} ClaimsBeforeExhaustion(db: Db, verify: string -> Option<Claims>, n: TreasureId, calls: seq<ClaimCall>)
    requires AllAdmitted(calls, verify) && n in db.treasures && |calls| < db.treasures[n].remainingBoxes
    ensures var d := ClaimRun(db, verify, n, calls);
      n in d.treasures && d.treasures[n].remainingBoxes == db.treasures[n].remainingBoxes - |calls|
      && Completed(d) == Completed(db)
    decreases |calls|
  {
    if calls != [] {
      var front := calls[..|calls| - 1];
      var last := calls[|calls| - 1];
      assert AllAdmitted(front, verify) by {
        forall i | 0 <= i < |front| ensures Admitted(front[i].ctx, verify) {
          assert front[i] == calls[i];
        }
      }
      ClaimsBeforeExhaustion(db, verify, n, front);
      ClaimOfExisting(ClaimRun(db, verify, n, front), last.ctx, verify, n, last.now);
    }
  }

  /** On a coupon with `b >= 1` boxes, `b` claims delete it and raise the completed counter by
      exactly one, and any further claim is NotFound. */
  lemma {:induction false} ExhaustionAfterAllBoxes(db: Db, verify: string -> Option<Claims>, n: TreasureId,
                                                   calls: seq<ClaimCall>, next: ClaimCall)
    requires AllAdmitted(calls, verify) && Admitted(next.ctx, verify)
    requires n in db.treasures && db.treasures[n].remainingBoxes >= 1 && |calls| == db.treasures[n].remainingBoxes
    ensures var d := ClaimRun(db, verify, n, calls);
      && n !in d.treasures
      && Completed(d) == Completed(db) + 1
      && ClaimTreasure(d, next.ctx, verify, WellFormed(n), next.now).reply == Reply(404, Note(CouponNotFound))
      && n !in Available(d.treasures)
  {
    LastClaimDeletes(db, verify, n, calls);
    ClaimOfAbsent(ClaimRun(db, verify, n, calls), next.ctx, verify, n, next.now);
  }

  /** The `b`-th claim on a coupon with `b >= 1` boxes deletes it and counts one completion. */
  lemma {:induction false} LastClaimDeletes(db: Db, verify: string -> Option<Claims>, n: TreasureId, calls: seq<ClaimCall>)
    requires AllAdmitted(calls, verify)
    requires n in db.treasures && db.treasures[n].remainingBoxes >= 1 && |calls| == db.treasures[n].remainingBoxes
    ensures var d := ClaimRun(db, verify, n, calls);
      n !in d.treasures && Completed(d) == Completed(db) + 1
  {
    var front := calls[..|calls| - 1];
    var last := calls[|calls| - 1];
    assert AllAdmitted(front, verify) by {
      forall i | 0 <= i < |front| ensures Admitted(front[i].ctx, verify) {
        assert front[i] == calls[i];
      }
    }
    ClaimsBeforeExhaustion(db, verify, n, front);
    var before := ClaimRun(db, verify, n, front);
    ClaimOfLastBox(before, last.ctx, verify, n, last.now);
    ClaimRunStep(db, verify, n, calls);
  }

  lemma ClaimRunStep(db: Db, verify: string -> Option<Claims>, n: TreasureId, calls: seq<ClaimCall>)
    requires calls != []
    ensures var last := calls[|calls| - 1];
      ClaimRun(db, verify, n, calls)
      == ClaimTreasure(ClaimRun(db, verify, n, calls[..|calls| - 1]), last.ctx, verify, WellFormed(n), last.now).db
  {
  }

  /** A claim on a coupon's last box deletes it and counts one completion. */
  lemma ClaimOfLastBox(db: Db, ctx: Context, verify: string -> Option<Claims>, n: TreasureId, now: Time)
    requires Admitted(ctx, verify) && n in db.treasures && db.treasures[n].remainingBoxes == 1
    ensures var d := ClaimTreasure(db, ctx, verify, WellFormed(n), now).db;
      n !in d.treasures && Completed(d) == Completed(db) + 1
  {
    ClaimOfExisting(db, ctx, verify, n, now);
  }

  /** The end-to-end scenario: a coupon created with two boxes is listed, two claims use it up,
      the third claim is NotFound, it is no longer listed, and exactly one completion was counted. */
  lemma {:induction false} TwoBoxScenario(db: Db, ctx: Context, verify: string -> Option<Claims>, place: Placement,
                                          first: ClaimCall, second: ClaimCall, third: ClaimCall, now: Time)
    requires Valid(db) && Admitted(ctx, verify)
    requires Admitted(first.ctx, verify) && Admitted(second.ctx, verify) && Admitted(third.ctx, verify)
    ensures var created := CreateTreasure(db, ctx, verify, CreateBody(place, Missing, Missing, Given(2)), now);
      var id := db.nextTreasureId;
      var d := ClaimRun(created.db, verify, id, [first, second]);
      && id in ListTreasures(created.db, ctx, now).reply.payload.available
      && ClaimTreasure(d, third.ctx, verify, WellFormed(id), third.now).reply.status == 404
      && id !in ListTreasures(d, ctx, now).reply.payload.available
      && Completed(d) == Completed(created.db) + 1
  {
    var body := CreateBody(place, Missing, Missing, Given(2));
    CreateOfValidBody(db, ctx, verify, body, now);
    var created := CreateTreasure(db, ctx, verify, body, now);
    ExhaustionAfterAllBoxes(created.db, verify, db.nextTreasureId, [first, second], third);
  }
}
