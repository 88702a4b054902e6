/** The documents of the store (the Mongoose schemas) and the single-document updates the
    middlewares and handlers apply to them. */
module Documents {
  import opened Common
  import opened Auth

  type TreasureId = nat

  // ---------------------------------------------------------------- treasures

  /** The placement fields a creator sends; Number fields are absent or given. */
  datatype Placement = Placement(
    lat: Option<real>, lng: Option<real>,
    placementDate: Option<string>, name: Option<string>, ig: Option<string>, face: Option<string>,
    mission: Option<string>, discount: Option<string>, discountBaht: Option<string>)

  datatype Treasure = Treasure(place: Placement, totalBoxes: int, remainingBoxes: int)

  /** A Number field of a request body as Mongoose's cast sees it. */
  datatype NumberField<T> = Missing | Given(value: T) | Uncastable

  predicate Castable<T>(f: NumberField<T>) {
    !f.Uncastable?
  }

  function GivenOr<T>(f: NumberField<T>, default: T): T {
    if f.Given? then f.value else default
  }

  function AsOption<T>(f: NumberField<T>): Option<T> {
    if f.Given? then Some(f.value) else None
  }

  /** Default of both box counts in the treasure schema. */
  const DefaultBoxes: int := 1

  /** `new Treasure({ ...req.body, remainingBoxes: req.body.totalBoxes })`: an absent count leaves
      both fields to their schema default. */
  function NewTreasure(place: Placement, totalBoxes: NumberField<int>): (t: Treasure)
    requires Castable(totalBoxes)
    ensures t.remainingBoxes == t.totalBoxes
    ensures t.totalBoxes == if totalBoxes.Given? then totalBoxes.value else 1
    ensures t.place == place
  {
    var n := GivenOr(totalBoxes, DefaultBoxes);
    Treasure(place, n, n)
  }

  // ---------------------------------------------------------------- global stats

  datatype Counter = AppOpen | TreasuresCreated | TreasuresOpened | TreasuresCompleted

  function CounterName(c: Counter): string {
    match c
    case AppOpen => "appOpenCount"
    case TreasuresCreated => "treasuresCreatedCount"
    case TreasuresOpened => "treasuresOpenedCount"
    case TreasuresCompleted => "treasuresCompletedCount"
  }

  /** The singleton `global-stats` document. */
  datatype GlobalStats = GlobalStats(
    appOpenCount: nat, treasuresCreatedCount: nat, treasuresOpenedCount: nat, treasuresCompletedCount: nat,
    lastAppOpen: Option<Time>, lastTreasureCreated: Option<Time>,
    lastTreasureOpened: Option<Time>, lastTreasureCompleted: Option<Time>)

  /** What an upsert inserts: every counter at its default 0, no timestamps. */
  const ZeroStats: GlobalStats := GlobalStats(0, 0, 0, 0, None, None, None, None)

  function Count(s: GlobalStats, c: Counter): nat {
    match c
    case AppOpen => s.appOpenCount
    case TreasuresCreated => s.treasuresCreatedCount
    case TreasuresOpened => s.treasuresOpenedCount
    case TreasuresCompleted => s.treasuresCompletedCount
  }

  function LastAt(s: GlobalStats, c: Counter): Option<Time> {
    match c
    case AppOpen => s.lastAppOpen
    case TreasuresCreated => s.lastTreasureCreated
    case TreasuresOpened => s.lastTreasureOpened
    case TreasuresCompleted => s.lastTreasureCompleted
  }

  /** `countApiCall`'s choice of the timestamp to set with its increment: one for each of three
      fixed counter names, none for any other name. */
  function TimestampFor(counterName: string): (r: Option<Counter>)
    ensures r.Some? ==> CounterName(r.value) == counterName && r.value != TreasuresCompleted
    ensures r.None? ==> counterName !in {CounterName(AppOpen), CounterName(TreasuresCreated), CounterName(TreasuresOpened)}
  {
    if counterName == "appOpenCount" then Some(AppOpen)
    else if counterName == "treasuresCreatedCount" then Some(TreasuresCreated)
    else if counterName == "treasuresOpenedCount" then Some(TreasuresOpened)
    else None
  }

  /** `$inc` of one counter, and `$set` of its timestamp when `stamp` is given. */
  function Bump(s: GlobalStats, c: Counter, stamp: Option<Time>): (r: GlobalStats)
    ensures Count(r, c) == Count(s, c) + 1
    ensures LastAt(r, c) == if stamp.Some? then stamp else LastAt(s, c)
    ensures forall d :: d != c ==> Count(r, d) == Count(s, d) && LastAt(r, d) == LastAt(s, d)
  {
    var t := if stamp.Some? then stamp else LastAt(s, c);
    match c
    case AppOpen => s.(appOpenCount := s.appOpenCount + 1, lastAppOpen := t)
    case TreasuresCreated => s.(treasuresCreatedCount := s.treasuresCreatedCount + 1, lastTreasureCreated := t)
    case TreasuresOpened => s.(treasuresOpenedCount := s.treasuresOpenedCount + 1, lastTreasureOpened := t)
    case TreasuresCompleted => s.(treasuresCompletedCount := s.treasuresCompletedCount + 1, lastTreasureCompleted := t)
  }

  /** No counter of `b` is below its value in `a`. */
  predicate StatsGrow(a: GlobalStats, b: GlobalStats) {
    forall c :: Count(a, c) <= Count(b, c)
  }

  // ---------------------------------------------------------------- visitors

  /** A visitor, keyed by IP address; `device` is UAParser's reading of the user agent. */
  datatype Visitor = Visitor(
    userAgent: Option<string>, device: Option<string>,
    visitCount: nat, firstVisit: Time, lastVisit: Time, totalTimeOnPageSeconds: nat,
    appOpenCount: nat, treasuresCreatedCount: nat, treasuresOpenedCount: nat)

  /** The schema defaults an upsert inserts (`firstVisit`, `lastVisit` default to now). */
  function NewVisitor(now: Time): Visitor {
    Visitor(None, None, 0, now, now, 0, 0, 0, 0)
  }

  /** `trackVisitor`'s choice of the extra per-visitor counter, from the method and the
      original URL (query string included). */
  function VisitorCounterFor(verb: string, url: string): (r: Option<Counter>)
    ensures r == Some(TreasuresCreated) <==> (verb == "POST" && url == "/api/treasures")
    ensures r == Some(TreasuresOpened) <==> (verb == "PATCH" && Text.StartsWith(url, "/api/treasures/"))
    ensures r.None? || r == Some(TreasuresCreated) || r == Some(TreasuresOpened)
  {
    if verb == "POST" && url == "/api/treasures" then Some(TreasuresCreated)
    else if verb == "PATCH" && Text.StartsWith(url, "/api/treasures/") then Some(TreasuresOpened)
    else None
  }

  /** The `trackVisitor` update of one visitor document. */
  function Visit(v: Visitor, userAgent: Option<string>, device: string, extra: Option<Counter>, now: Time): (r: Visitor)
    ensures r.visitCount == v.visitCount + 1 && r.lastVisit == now && r.firstVisit == v.firstVisit
    ensures r.userAgent == userAgent && r.device == Some(device)
    ensures r.treasuresCreatedCount == v.treasuresCreatedCount + (if extra == Some(TreasuresCreated) then 1 else 0)
    ensures r.treasuresOpenedCount == v.treasuresOpenedCount + (if extra == Some(TreasuresOpened) then 1 else 0)
    ensures r.appOpenCount == v.appOpenCount && r.totalTimeOnPageSeconds == v.totalTimeOnPageSeconds
  {
    var w := v.(userAgent := userAgent, device := Some(device), lastVisit := now, visitCount := v.visitCount + 1);
    match extra
    case Some(TreasuresCreated) => w.(treasuresCreatedCount := w.treasuresCreatedCount + 1)
    case Some(TreasuresOpened) => w.(treasuresOpenedCount := w.treasuresOpenedCount + 1)
    case _ => w
  }

  predicate VisitorGrows(a: Visitor, b: Visitor) {
    && a.visitCount <= b.visitCount
    && a.totalTimeOnPageSeconds <= b.totalTimeOnPageSeconds
    && a.appOpenCount <= b.appOpenCount
    && a.treasuresCreatedCount <= b.treasuresCreatedCount
    && a.treasuresOpenedCount <= b.treasuresOpenedCount
  }

  // ---------------------------------------------------------------- accounts

  datatype Report = Report(
    totalTimeOnPageSeconds: nat, treasuresPlaced: nat, treasuresClaimed: nat,
    lastLogin: Option<Time>, appOpenCount: nat, lastAppOpen: Option<Time>)

  const ZeroReport: Report := Report(0, 0, 0, None, 0, None)

  predicate ReportGrows(a: Report, b: Report) {
    && a.totalTimeOnPageSeconds <= b.totalTimeOnPageSeconds
    && a.treasuresPlaced <= b.treasuresPlaced
    && a.treasuresClaimed <= b.treasuresClaimed
    && a.appOpenCount <= b.appOpenCount
  }

  /** A registered account; `passwordHash` is what the pre-save hook stored. */
  datatype User = User(
    username: string, email: string, passwordHash: string,
    gender: Option<string>, ageRange: Option<string>, referral: Option<string>,
    createdAt: Time, resetToken: Option<string>, resetExpires: Option<Time>)

  const Genders: set<string> := {"male", "female", "lgbtq+", "not-specified"}
  const AgeRanges: set<string> := {"<18", "18-25", "26-35", ">35"}

  /** The enum validators: an absent value passes, a given one must be listed. */
  predicate InEnum(v: Option<string>, allowed: set<string>) {
    v.None? || v.value in allowed
  }

  /** Lifetime of a reset token: one hour. */
  const ResetTokenLifetime: int := 3600000
}
