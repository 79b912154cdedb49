/** Every request as a small program counter over atomic steps: one SQL statement or
    transaction, one Redis command or pipeline. Any number of requests, of any number of
    instances, interleave their steps; a request may stop between any two. */
module Protocol {
  import opened Prelude
  import opened Pricing
  import opened RideStates
  import opened TripClock
  import opened Ledger
  import opened LedgerInvariants
  import opened Redis

  const MATCH_DEADLINE := 60 * SECOND

  // ---- program counters ----

  datatype Actor = ByRider(rider: RiderId) | ByDriver(driver: DriverId) | ByNobody

  /** What the offer loop knows of a ride. */
  datatype Search = Search(r: RideId, tier: Tier, route: Route, city: City)

  datatype Row = Row(search: Search, createdAt: Instant)

  datatype Booking = Booking(rider: RiderId, q: QuoteId, tier: Tier, payBy: PayBy)

  datatype CreatePc =
    | LoadQuote(b: Booking)
    | InsertRow(b: Booking)
    | ToMatching(r: RideId)
    | UncacheNew(r: RideId)
    | LoadForMatch(r: RideId)

  datatype OfferPc =
    | FindNearby(s: Search)
    | ReadTried(s: Search, left: seq<DriverId>)
    | ReadCandidate(s: Search, tried: set<DriverId>, left: seq<DriverId>)
    | Claim(s: Search, tried: set<DriverId>, left: seq<DriverId>) // the first of those left
    | Record(s: Search, d: DriverId)

  datatype AcceptPc =
    | TakeHeld(d: DriverId, r: RideId)
    | Replay(d: DriverId, r: RideId)
    | Assign(d: DriverId, r: RideId)
    | LoadCard(d: DriverId, r: RideId)
    | MarkDriver(d: DriverId, r: RideId, city: City, tier: Tier)
    | UncacheTaken(d: DriverId, r: RideId)
    | DropTaken(d: DriverId, r: RideId)
    | LoadTaken(d: DriverId, r: RideId)

  datatype DeclinePc =
    | TakeDeclined(d: DriverId, r: RideId)
    | ReadOffer(d: DriverId, r: RideId)
    | DropOffer(r: RideId)
    | LoadDeclined(r: RideId)

  datatype SweepPc =
    | ClaimBatch
    | NextRow(rows: seq<Row>, now: Instant)
    | ExpireRow(r: RideId, rows: seq<Row>, now: Instant)
    | UncacheExpired(r: RideId, rows: seq<Row>, now: Instant)
    | CheckOffer(s: Search, rows: seq<Row>, now: Instant)

  datatype CancelPc =
    | LoadOwners(r: RideId, actor: Actor, reason: Option<string>)
    | CommitCancel(r: RideId, actor: Actor, reason: Option<string>)
    | UncacheCancelled(r: RideId, driver: Option<DriverId>)

  datatype Leg = ToArriving | ToArrived

  datatype ProgressPc =
    | LoadAssigned(r: RideId, d: DriverId, leg: Leg)
    | CommitLeg(r: RideId, d: DriverId, leg: Leg)
    | UncacheLeg(r: RideId)

  datatype AvailabilityPc =
    | CommitAvailability(d: DriverId, available: bool)
    | ClearStale(d: DriverId, tier: Tier, city: City)
    | MirrorAvailable(d: DriverId, tier: Tier, city: City)
    | ReadLast(d: DriverId, city: City)
    | PoolAvailable(d: DriverId, city: City, pos: Pos)
    | TakeOutstanding(d: DriverId, tier: Tier, city: City)
    | DropOutstanding(d: DriverId, r: RideId, tier: Tier, city: City)
    | LeavePool(d: DriverId, tier: Tier, city: City)

  datatype ReleasePc =
    | LoadDriver(d: DriverId)
    | MirrorReleased(d: DriverId, m: Mirror)
    | PoolReleased(d: DriverId, city: City, pos: Pos)

  datatype PingPc =
    | ReadMirrors(d: DriverId, pos: Pos)
    | WritePosition(d: DriverId, pos: Pos, mirror: Option<Mirror>, ride: Option<RideId>, metres: Option<real>)

  datatype StartPc =
    | LoadStart(d: DriverId, r: RideId, otp: string)
    | CommitStart(d: DriverId, r: RideId)
    | ResetDist(r: RideId)
    | ClearStartDist(r: RideId)
    | UncacheStarted(r: RideId)

  datatype PausePc =
    | LoadPause(d: DriverId, r: RideId)
    | CommitPause(d: DriverId, r: RideId)
    | MarkPaused(r: RideId)

  datatype ResumePc =
    | LoadResume(d: DriverId, r: RideId)
    | TakePause(d: DriverId, r: RideId)
    | CommitResume(d: DriverId, r: RideId, elapsed: nat)

  /** What ending a trip has read so far; fields not read yet hold anything. */
  datatype Bill = Bill(
    d: DriverId, r: RideId, q: QuoteId, tier: Tier, payBy: PayBy,
    startedAt: Instant, pausedSeconds: int, endedAt: Instant, surgeX100: int, distanceM: int)

  datatype EndPc =
    | LoadEnding(d: DriverId, r: RideId)
    | LoadTrip(b: Bill)
    | FoldPause(b: Bill)
    | LoadPrice(b: Bill)
    | ReadDist(b: Bill)
    | ClearEndDist(b: Bill)
    | CommitEnd(b: Bill)

  datatype TriggerPc =
    | LoadOwner(rider: RiderId, r: RideId)
    | LoadPayment(rider: RiderId, r: RideId)
    | CommitAttempt(rider: RiderId, r: RideId, p: PaymentId)

  datatype ConfirmPc =
    | LoadByRef(ref: PspRef, success: bool)
    | CommitSettlement(ref: PspRef, r: RideId, success: bool)

  datatype GetPc =
    | ReadCached(r: RideId, actor: Actor)
    | LoadFresh(r: RideId, actor: Actor)
    | FillCache(v: View, actor: Actor)

  datatype Outcome = Accepted(d: DriverId, r: RideId) | Shown(v: View) | Finished | Rejected

  datatype Proc =
    | Done(outcome: Outcome)
    | Creating(create: CreatePc)
    | Offering(offer: OfferPc, after: Proc)
    | Accepting(accept: AcceptPc)
    | Declining(decline: DeclinePc)
    | Sweeping(sweep: SweepPc)
    | Cancelling(cancel: CancelPc)
    | Progressing(progress: ProgressPc)
    | Regenerating(rider: RiderId, r: RideId)
    | Getting(get: GetPc)
    | Toggling(availability: AvailabilityPc)
    | Releasing(release: ReleasePc, after: Proc)
    | Pinging(ping: PingPc)
    | Starting(start: StartPc)
    | Pausing(pause: PausePc)
    | Resuming(resume: ResumePc)
    | Ending(end: EndPc)
    | Triggering(trigger: TriggerPc)
    | Confirming(confirm: ConfirmPc)
    | Uncaching(r: RideId, after: Proc)

  /** How a request begins. */
  predicate Entry(p: Proc) {
    match p
    case Creating(pc) => pc.LoadQuote?
    case Accepting(pc) => pc.TakeHeld?
    case Declining(pc) => pc.TakeDeclined?
    case Sweeping(pc) => pc.ClaimBatch?
    case Cancelling(pc) => pc.LoadOwners?
    case Progressing(pc) => pc.LoadAssigned?
    case Regenerating(_, _) => true
    case Getting(pc) => pc.ReadCached?
    case Toggling(pc) => pc.CommitAvailability?
    case Pinging(pc) => pc.ReadMirrors?
    case Starting(pc) => pc.LoadStart?
    case Pausing(pc) => pc.LoadPause?
    case Resuming(pc) => pc.LoadResume?
    case Ending(pc) => pc.LoadEnding?
    case Triggering(pc) => pc.LoadOwner?
    case Confirming(pc) => pc.LoadByRef?
    case _ => false
  }

  /** Whatever a step takes from outside the two stores. */
  datatype Input = Input(
    now: Instant,
    newId: nat,                  // a new row id or payment reference
    otp: string,                 // a new code
    nearby: seq<DriverId>,       // what the geo search returns
    batch: seq<RideId>,          // the rows a sweep locks
    pick: PaymentId,             // the ride's latest payment
    accepted: bool,              // the rate limit lets the ping through
    metres: Option<real>)        // the distance since the previous fix, unless it is a teleport

  /** For a step that takes nothing. */
  const QUIET := Input(0, 0, "", [], [], 0, true, None)

  /** The effect of one step: the transaction it attempts, the keys it leaves, what is next. */
  datatype Act = Act(tx: Option<Tx>, keys: Keys, next: Proc)

  /** A step that only reads. */
  function Look(k: Keys, next: Proc): Act {
    Act(None, k, next)
  }

  function Write(k: Keys, next: Proc): Act {
    Act(None, k, next)
  }

  /** A step that commits tx, or gives up when a guard of it fails. */
  function Commit(db: Db, k: Keys, tx: Tx, next: Proc, otherwise: Proc): Act {
    Act(Some(tx), k, if Ok(db, tx) then next else otherwise)
  }

  const REJECTED := Done(Rejected)
  const FINISHED := Done(Finished)

  // ---- rides.Create and the offer loop ----

  predicate QuoteUsable(db: Db, b: Booking, now: Instant) {
    b.q in db.quotes && db.quotes[b.q].rider == b.rider && now <= db.quotes[b.q].expiresAt
    && b.tier in db.quotes[b.q].prices
  }

  function SearchOf(db: Db, r: RideId): Option<Search> {
    if r in db.rides && db.rides[r].quote in db.quotes
    then Some(Search(r, db.rides[r].tier, db.rides[r].route, db.quotes[db.rides[r].quote].city))
    else None
  }

  /** One offer-loop step for a ride if it is matching. */
  function OfferIfMatching(db: Db, k: Keys, r: RideId, after: Proc): Act {
    if HasStatus(db, r, Matching) && SearchOf(db, r).Some?
    then Look(k, Offering(FindNearby(SearchOf(db, r).value), after))
    else Look(k, after)
  }

  function CreateStep(db: Db, k: Keys, pc: CreatePc, i: Input): Act {
    match pc
    case LoadQuote(b) => Look(k, if QuoteUsable(db, b, i.now) then Creating(InsertRow(b)) else REJECTED)
    case InsertRow(b) =>
      Commit(db, k, InsertRide(i.newId, b.rider, b.q, b.tier, b.payBy, i.now), Creating(ToMatching(i.newId)), REJECTED)
    case ToMatching(r) => Commit(db, k, MoveRide(r, Requested, Matching, i.now), Creating(UncacheNew(r)), REJECTED)
    case UncacheNew(r) => Write(Uncache(k, r), Creating(LoadForMatch(r)))
    case LoadForMatch(r) => OfferIfMatching(db, k, r, FINISHED)
  }

  predicate Eligible(mirror: Option<Mirror>, hasFix: bool, tier: Tier) {
    mirror.Some? && mirror.value.status == Available && mirror.value.tier == tier && hasFix
  }

  predicate AllPooled(k: Keys, city: City, ds: seq<DriverId>) {
    forall d | d in ds :: (city, d) in k.geo
  }

  function OfferStep(k: Keys, pc: OfferPc, after: Proc, i: Input): Act {
    match pc
    case FindNearby(s) =>
      Look(k, if AllPooled(k, s.city, i.nearby) then Offering(ReadTried(s, i.nearby), after) else after)
    case ReadTried(s, left) => Look(k, Offering(ReadCandidate(s, Tried(k, s.r), left), after))
    case ReadCandidate(s, tried, left) =>
      if left == [] then Look(k, after)
      else if left[0] in tried || !Eligible(Lookup(k.mirror, left[0]), left[0] in k.last, s.tier)
      then Look(k, Offering(ReadCandidate(s, tried, left[1..]), after))
      else Look(k, Offering(Claim(s, tried, left), after))
    case Claim(s, tried, left) =>
      if left == [] then Look(k, after)
      else if left[0] in k.offerDriver then Look(k, Offering(ReadCandidate(s, tried, left[1..]), after))
      else Write(ClaimOffer(k, left[0], s.r), Offering(Record(s, left[0]), after))
    case Record(s, d) => Write(RecordOffer(k, s.r, d), after)
  }

  /** The loop commits nothing, writes only offers and tried sets, and then goes on to
      `after` or stays in the loop. */
  predicate OffersOnly(k: Keys, after: Proc, a: Act) {
    && a.tx == None && (a.next == after || (a.next.Offering? && a.next.after == after))
    && a.keys == k.(offerDriver := a.keys.offerDriver, offerRide := a.keys.offerRide, tried := a.keys.tried)
  }

  lemma OfferStepOffersOnly(k: Keys, pc: OfferPc, after: Proc, i: Input)
    ensures OffersOnly(k, after, OfferStep(k, pc, after, i))
  {
    hide Eligible, AllPooled;
    match pc
    case Claim(_, _, _) => hide RecordOffer, Tried;
    case Record(_, _) => hide ClaimOffer, Tried;
    case _ => hide ClaimOffer, RecordOffer;
  }

  // ---- matching: Accept, Decline, the sweeper ----

  /** Whether an acceptance repeats one already made. */
  predicate AlreadyAssigned(db: Db, d: DriverId, r: RideId) {
    r in db.rides && db.rides[r].driver == Some(d) && Driven(db.rides[r].status)
  }

  function AcceptStep(db: Db, k: Keys, pc: AcceptPc, i: Input): Act {
    match pc
    case TakeHeld(d, r) =>
      Write(TakeOffer(k, d), Accepting(if Lookup(k.offerDriver, d) == Some(r) then Assign(d, r) else Replay(d, r)))
    case Replay(d, r) => Look(k, if AlreadyAssigned(db, d, r) then Done(Accepted(d, r)) else REJECTED)
    case Assign(d, r) => Commit(db, k, AssignRide(r, d, i.otp, i.now), Accepting(LoadCard(d, r)), REJECTED)
    case LoadCard(d, r) =>
      Look(k, if d in db.drivers then Accepting(MarkDriver(d, r, db.drivers[d].city, db.drivers[d].tier)) else REJECTED)
    case MarkDriver(d, r, city, tier) => Write(MarkOnTrip(k, d, r, city, tier), Accepting(UncacheTaken(d, r)))
    case UncacheTaken(d, r) => Write(Uncache(k, r), Accepting(DropTaken(d, r)))
    case DropTaken(d, r) => Write(DropOfferRide(k, r), Accepting(LoadTaken(d, r)))
    case LoadTaken(d, r) => Look(k, Done(Accepted(d, r)))
  }

  function DeclineStep(db: Db, k: Keys, pc: DeclinePc): Act {
    match pc
    case TakeDeclined(d, r) => Write(TakeOffer(k, d), Declining(ReadOffer(d, r)))
    case ReadOffer(d, r) =>
      Look(k, Declining(if Lookup(k.offerRide, r) == Some(d) then DropOffer(r) else LoadDeclined(r)))
    case DropOffer(r) => Write(DropOfferRide(k, r), Declining(LoadDeclined(r)))
    case LoadDeclined(r) => OfferIfMatching(db, k, r, FINISHED)
  }

  /** The rows of a batch, where each is a matching ride. */
  function RowsOf(db: Db, batch: seq<RideId>): seq<Row> {
    if batch == [] then []
    else
      var rest := RowsOf(db, batch[1..]);
      if HasStatus(db, batch[0], Matching) && SearchOf(db, batch[0]).Some?
      then [Row(SearchOf(db, batch[0]).value, db.rides[batch[0]].createdAt)] + rest
      else rest
  }

  function SweepStep(db: Db, k: Keys, pc: SweepPc, i: Input): Act {
    match pc
    case ClaimBatch => Look(k, Sweeping(NextRow(RowsOf(db, i.batch), i.now)))
    case NextRow(rows, now) =>
      if rows == [] then Look(k, FINISHED)
      else if now - rows[0].createdAt > MATCH_DEADLINE
      then Look(k, Sweeping(ExpireRow(rows[0].search.r, rows[1..], now)))
      else Look(k, Sweeping(CheckOffer(rows[0].search, rows[1..], now)))
    case ExpireRow(r, rows, now) =>
      Commit(db, k, MoveRide(r, Matching, Expired, i.now), Sweeping(UncacheExpired(r, rows, now)), Sweeping(NextRow(rows, now)))
    case UncacheExpired(r, rows, now) => Write(Uncache(k, r), Sweeping(NextRow(rows, now)))
    case CheckOffer(s, rows, now) =>
      var rest := Sweeping(NextRow(rows, now));
      Look(k, if s.r in k.offerRide then rest else Offering(FindNearby(s), rest))
  }

  // ---- rides: Cancel, driver progress, RegenerateOTP ----

  predicate Entitled(db: Db, r: RideId, actor: Actor) {
    r in db.rides && match actor
      case ByRider(rider) => db.rides[r].rider == rider
      case ByDriver(d) => db.rides[r].driver == Some(d)
      case ByNobody => false
  }

  function CancelTarget(actor: Actor): RideStatus {
    if actor.ByDriver? then CancelledByDriver else CancelledByRider
  }

  function CancelStep(db: Db, k: Keys, pc: CancelPc, i: Input): Act {
    match pc
    case LoadOwners(r, actor, reason) =>
      Look(k, if Entitled(db, r, actor) then Cancelling(CommitCancel(r, actor, reason)) else REJECTED)
    case CommitCancel(r, actor, reason) =>
      var driver := if r in db.rides then db.rides[r].driver else None;
      Commit(db, k, CancelRide(r, CancelTarget(actor), reason, i.now), Cancelling(UncacheCancelled(r, driver)), REJECTED)
    case UncacheCancelled(r, driver) =>
      Write(Uncache(k, r), if driver.Some? then Releasing(LoadDriver(driver.value), FINISHED) else FINISHED)
  }

  // ---- rides.Get ----

  predicate MaySee(v: View, actor: Actor) {
    match actor
    case ByRider(rider) => v.rider == rider
    case ByDriver(d) => v.driver == Some(d)
    case ByNobody => false
  }

  function ShowTo(v: View, actor: Actor): Proc {
    if MaySee(v, actor) then Done(Shown(v)) else REJECTED
  }

  function GetStep(db: Db, k: Keys, pc: GetPc): Act {
    match pc
    case ReadCached(r, actor) => Look(k, if r in k.cache then ShowTo(k.cache[r], actor) else Getting(LoadFresh(r, actor)))
    case LoadFresh(r, actor) => Look(k, if r in db.rides then Getting(FillCache(ViewOf(db, r), actor)) else REJECTED)
    case FillCache(v, actor) => Write(k.(cache := k.cache[v.id := v]), ShowTo(v, actor))
  }

  function Before(leg: Leg): RideStatus {
    match leg case ToArriving => DriverAssigned case ToArrived => DriverArriving
  }

  function Beyond(leg: Leg): RideStatus {
    match leg case ToArriving => DriverArriving case ToArrived => Arrived
  }

  predicate DrivenBy(db: Db, r: RideId, d: DriverId) {
    r in db.rides && db.rides[r].driver == Some(d)
  }

  function ProgressStep(db: Db, k: Keys, pc: ProgressPc, i: Input): Act {
    match pc
    case LoadAssigned(r, d, leg) => Look(k, if DrivenBy(db, r, d) then Progressing(CommitLeg(r, d, leg)) else REJECTED)
    case CommitLeg(r, d, leg) =>
      Commit(db, k, MoveRide(r, Before(leg), Beyond(leg), i.now), Progressing(UncacheLeg(r)), REJECTED)
    case UncacheLeg(r) => Write(Uncache(k, r), FINISHED)
  }

  // ---- drivers ----

  function ToggleStep(db: Db, k: Keys, pc: AvailabilityPc): Act {
    match pc
    case CommitAvailability(d, available) =>
      if d !in db.drivers then Look(k, REJECTED)
      else
        var (tier, city) := (db.drivers[d].tier, db.drivers[d].city);
        Commit(db, k, SetAvailability(d, available),
               Toggling(if available then ClearStale(d, tier, city) else TakeOutstanding(d, tier, city)), REJECTED)
    case ClearStale(d, tier, city) => Write(ClearMarker(k, d), Toggling(MirrorAvailable(d, tier, city)))
    case MirrorAvailable(d, tier, city) =>
      Write(WriteMirror(k, d, Mirror(Available, tier, city)), Toggling(ReadLast(d, city)))
    case ReadLast(d, city) => Look(k, if d in k.last then Toggling(PoolAvailable(d, city, k.last[d])) else FINISHED)
    case PoolAvailable(d, city, pos) => Write(GeoAdd(k, city, d, pos), FINISHED)
    case TakeOutstanding(d, tier, city) =>
      Write(TakeOffer(k, d), Toggling(
        if d in k.offerDriver then DropOutstanding(d, k.offerDriver[d], tier, city) else LeavePool(d, tier, city)))
    case DropOutstanding(d, r, tier, city) => Write(DropOfferRide(k, r), Toggling(LeavePool(d, tier, city)))
    case LeavePool(d, tier, city) => Write(GoOffline(k, d, tier, city), FINISHED)
  }

  function ReleaseStep(db: Db, k: Keys, pc: ReleasePc, after: Proc): Act {
    match pc
    case LoadDriver(d) =>
      if d !in db.drivers then Look(k, after)
      else Look(k, Releasing(MirrorReleased(d, Mirror(db.drivers[d].status, db.drivers[d].tier, db.drivers[d].city)), after))
    case MirrorReleased(d, m) =>
      Write(WriteMirror(ClearMarker(k, d), d, m),
            if m.status == Available && d in k.last then Releasing(PoolReleased(d, m.city, k.last[d]), after) else after)
    case PoolReleased(d, city, pos) => Write(GeoAdd(k, city, d, pos), after)
  }

  function PingStep(k: Keys, pc: PingPc, i: Input): Act {
    match pc
    case ReadMirrors(d, pos) =>
      if !i.accepted then Look(k, REJECTED)
      else Look(k, Pinging(WritePosition(d, pos, Lookup(k.mirror, d), Lookup(k.marker, d), if d in k.last then i.metres else None)))
    case WritePosition(d, pos, mirror, ride, metres) => Write(Ping(k, d, pos, mirror, ride, metres), FINISHED)
  }

  // ---- trips ----

  predicate MayStart(db: Db, d: DriverId, r: RideId, otp: string) {
    DrivenBy(db, r, d) && db.rides[r].status == Arrived && db.rides[r].otp == Some(otp)
  }

  function StartStep(db: Db, k: Keys, pc: StartPc, i: Input): Act {
    match pc
    case LoadStart(d, r, otp) => Look(k, if MayStart(db, d, r, otp) then Starting(CommitStart(d, r)) else REJECTED)
    case CommitStart(d, r) => Commit(db, k, StartTrip(r, i.now), Starting(ResetDist(r)), REJECTED)
    case ResetDist(r) => Look(k, if r in k.dist then Starting(ClearStartDist(r)) else Starting(UncacheStarted(r)))
    case ClearStartDist(r) => Write(ClearDist(k, r), Starting(UncacheStarted(r)))
    case UncacheStarted(r) => Write(Uncache(k, r), FINISHED)
  }

  function PauseStep(db: Db, k: Keys, pc: PausePc, i: Input): Act {
    match pc
    case LoadPause(d, r) => Look(k, if DrivenBy(db, r, d) then Pausing(CommitPause(d, r)) else REJECTED)
    case CommitPause(d, r) => Commit(db, k, PauseTrip(r), Pausing(MarkPaused(r)), REJECTED)
    case MarkPaused(r) => Write(SetPausedAt(k, r, i.now), FINISHED)
  }

  function ResumeStep(db: Db, k: Keys, pc: ResumePc, i: Input): Act {
    match pc
    case LoadResume(d, r) => Look(k, if DrivenBy(db, r, d) then Resuming(TakePause(d, r)) else REJECTED)
    case TakePause(d, r) => Write(TakePausedAt(k, r), Resuming(CommitResume(d, r, Elapsed(k, r, i.now))))
    case CommitResume(d, r, elapsed) => Commit(db, k, ResumeTrip(r, elapsed), FINISHED, REJECTED)
  }

  function FareOf(b: Bill): Breakdown {
    FinalFare(Rates(b.tier), b.distanceM, ChargedSeconds(b.startedAt, b.endedAt, b.pausedSeconds), b.surgeX100)
  }

  function EndStep(db: Db, k: Keys, pc: EndPc, i: Input): Act {
    match pc
    case LoadEnding(d, r) =>
      if DrivenBy(db, r, d) && db.rides[r].status == InProgress then
        var ride := db.rides[r];
        var payBy := if ride.payBy.Some? then ride.payBy.value else Cash;
        Look(k, Ending(LoadTrip(Bill(d, r, ride.quote, ride.tier, payBy, 0, 0, 0, 0, 0))))
      else Look(k, REJECTED)
    case LoadTrip(b) =>
      if b.r !in db.trips then Look(k, REJECTED)
      else
        var trip := db.trips[b.r];
        var b' := b.(startedAt := trip.startedAt, pausedSeconds := trip.pausedSeconds);
        Look(k, Ending(if trip.status == Paused then FoldPause(b') else LoadPrice(b')))
    case FoldPause(b) =>
      Write(TakePausedAt(k, b.r), Ending(LoadPrice(b.(pausedSeconds := b.pausedSeconds + Elapsed(k, b.r, i.now)))))
    case LoadPrice(b) =>
      if b.q !in db.quotes then Look(k, REJECTED)
      else Look(k, Ending(ReadDist(b.(endedAt := i.now, surgeX100 := db.quotes[b.q].surgeX100, distanceM := db.quotes[b.q].distanceM))))
    case ReadDist(b) =>
      var metered := MeteredDistance(k, b.r);
      var b' := if metered.Some? then b.(distanceM := metered.value) else b;
      Look(k, Ending(if b.r in k.dist then ClearEndDist(b') else CommitEnd(b')))
    case ClearEndDist(b) => Write(ClearDist(k, b.r), Ending(CommitEnd(b)))
    case CommitEnd(b) =>
      Commit(db, k, EndTrip(b.r, b.d, i.newId, b.payBy, b.endedAt, b.pausedSeconds, b.distanceM, FareOf(b)),
             Releasing(LoadDriver(b.d), Uncaching(b.r, FINISHED)), REJECTED)
  }

  // ---- payments ----

  predicate LatestPayment(db: Db, r: RideId, p: PaymentId) {
    p in db.payments && db.payments[p].ride == r
    && forall p' | p' in db.payments && db.payments[p'].ride == r :: db.payments[p'].createdAt <= db.payments[p].createdAt
  }

  function TriggerStep(db: Db, k: Keys, pc: TriggerPc, i: Input): Act {
    match pc
    case LoadOwner(rider, r) =>
      Look(k, if HasStatus(db, r, Completed) && db.rides[r].rider == rider then Triggering(LoadPayment(rider, r)) else REJECTED)
    case LoadPayment(rider, r) =>
      Look(k, if LatestPayment(db, r, i.pick) && CanTrigger(db.payments[i.pick])
              then Triggering(CommitAttempt(rider, r, i.pick)) else REJECTED)
    case CommitAttempt(rider, r, p) => Commit(db, k, TriggerPayment(p, i.newId), FINISHED, REJECTED)
  }

  function ConfirmStep(db: Db, k: Keys, pc: ConfirmPc): Act {
    match pc
    case LoadByRef(ref, success) =>
      if PaymentOf(db, ref).None? then Look(k, REJECTED)
      else
        var pay := db.payments[PaymentOf(db, ref).value];
        Look(k, if pay.status == Processing then Confirming(CommitSettlement(ref, pay.ride, success)) else FINISHED)
    case CommitSettlement(ref, r, success) =>
      Commit(db, k, if success then SettleSuccess(ref, r) else SettleFailure(ref), FINISHED, FINISHED)
  }

  // ---- one step of any request ----

  function Step(db: Db, k: Keys, p: Proc, i: Input): Act {
    match p
    case Done(_) => Look(k, p)
    case Creating(pc) => CreateStep(db, k, pc, i)
    case Offering(pc, after) => OfferStep(k, pc, after, i)
    case Accepting(pc) => AcceptStep(db, k, pc, i)
    case Declining(pc) => DeclineStep(db, k, pc)
    case Sweeping(pc) => SweepStep(db, k, pc, i)
    case Cancelling(pc) => CancelStep(db, k, pc, i)
    case Progressing(pc) => ProgressStep(db, k, pc, i)
    case Regenerating(rider, r) => Commit(db, k, RegenerateOtp(r, rider, i.otp, i.now), FINISHED, REJECTED)
    case Getting(pc) => GetStep(db, k, pc)
    case Toggling(pc) => ToggleStep(db, k, pc)
    case Releasing(pc, after) => ReleaseStep(db, k, pc, after)
    case Pinging(pc) => PingStep(k, pc, i)
    case Starting(pc) => StartStep(db, k, pc, i)
    case Pausing(pc) => PauseStep(db, k, pc, i)
    case Resuming(pc) => ResumeStep(db, k, pc, i)
    case Ending(pc) => EndStep(db, k, pc, i)
    case Triggering(pc) => TriggerStep(db, k, pc, i)
    case Confirming(pc) => ConfirmStep(db, k, pc)
    case Uncaching(r, after) => Write(Uncache(k, r), after)
  }

  function After(db: Db, tx: Option<Tx>): Db {
    match tx case None => db case Some(t) => Apply(db, t)
  }

  // ---- the world ----

  datatype World = World(db: Db, keys: Keys, procs: map<nat, Proc>)

  datatype Move =
    | Quoted(q: QuoteId, quote: Quote)      // a quote is made
    | Arrive(id: nat, p: Proc)              // a request comes in
    | Run(id: nat, i: Input)                // a request takes one step
    | Stop(id: nat)                         // a request goes no further
    | Evict(keys: Keys)                     // keys expire or are evicted
    | Havoc(keys: Keys)                     // Redis holds anything at all

  /** Moves that are not possible in a world leave it as it is. */
  function Do(w: World, m: Move): World {
    match m
    case Quoted(q, quote) => w.(db := Apply(w.db, InsertQuote(q, quote)))
    case Arrive(id, p) => if id !in w.procs && Entry(p) then w.(procs := w.procs[id := p]) else w
    case Run(id, i) =>
      if id !in w.procs then w
      else
        var a := Step(w.db, w.keys, w.procs[id], i);
        World(After(w.db, a.tx), a.keys, w.procs[id := a.next])
    case Stop(id) => w.(procs := w.procs - {id})
    case Evict(keys) => if Evicted(w.keys, keys) then w.(keys := keys) else w
    case Havoc(keys) => w.(keys := keys)
  }

  function Outcomes(w: World, moves: seq<Move>): World {
    if moves == [] then w else Do(Outcomes(w, moves[..|moves| - 1]), moves[|moves| - 1])
  }

  // ---- one request alone ----

  datatype Solo = Solo(db: Db, keys: Keys, proc: Proc)

  function StepAlone(s: Solo, i: Input): Solo {
    var a := Step(s.db, s.keys, s.proc, i);
    Solo(After(s.db, a.tx), a.keys, a.next)
  }

  // What one step of each kind of request comes to, without the other kinds.

  lemma CreatingAlone(s: Solo, pc: CreatePc, i: Input)
    requires s.proc == Creating(pc)
    ensures var a := CreateStep(s.db, s.keys, pc, i); StepAlone(s, i) == Solo(After(s.db, a.tx), a.keys, a.next)
  {
    hide CreateStep;
  }

  lemma AcceptingAlone(s: Solo, pc: AcceptPc, i: Input)
    requires s.proc == Accepting(pc)
    ensures var a := AcceptStep(s.db, s.keys, pc, i); StepAlone(s, i) == Solo(After(s.db, a.tx), a.keys, a.next)
  {
    hide AcceptStep;
  }

  lemma CancellingAlone(s: Solo, pc: CancelPc, i: Input)
    requires s.proc == Cancelling(pc)
    ensures var a := CancelStep(s.db, s.keys, pc, i); StepAlone(s, i) == Solo(After(s.db, a.tx), a.keys, a.next)
  {
    hide CancelStep;
  }

  lemma TogglingAlone(s: Solo, pc: AvailabilityPc, i: Input)
    requires s.proc == Toggling(pc)
    ensures var a := ToggleStep(s.db, s.keys, pc); StepAlone(s, i) == Solo(After(s.db, a.tx), a.keys, a.next)
  {
    hide ToggleStep;
  }

  lemma PingingAlone(s: Solo, pc: PingPc, i: Input)
    requires s.proc == Pinging(pc)
    ensures var a := PingStep(s.keys, pc, i); StepAlone(s, i) == Solo(After(s.db, a.tx), a.keys, a.next)
  {
    hide PingStep;
  }

  lemma StartingAlone(s: Solo, pc: StartPc, i: Input)
    requires s.proc == Starting(pc)
    ensures var a := StartStep(s.db, s.keys, pc, i); StepAlone(s, i) == Solo(After(s.db, a.tx), a.keys, a.next)
  {
    hide StartStep;
  }

  lemma PausingAlone(s: Solo, pc: PausePc, i: Input)
    requires s.proc == Pausing(pc)
    ensures var a := PauseStep(s.db, s.keys, pc, i); StepAlone(s, i) == Solo(After(s.db, a.tx), a.keys, a.next)
  {
    hide PauseStep;
  }

  lemma ResumingAlone(s: Solo, pc: ResumePc, i: Input)
    requires s.proc == Resuming(pc)
    ensures var a := ResumeStep(s.db, s.keys, pc, i); StepAlone(s, i) == Solo(After(s.db, a.tx), a.keys, a.next)
  {
    hide ResumeStep;
  }

  lemma EndingAlone(s: Solo, pc: EndPc, i: Input)
    requires s.proc == Ending(pc)
    ensures var a := EndStep(s.db, s.keys, pc, i); StepAlone(s, i) == Solo(After(s.db, a.tx), a.keys, a.next)
  {
    hide EndStep;
  }

  lemma TriggeringAlone(s: Solo, pc: TriggerPc, i: Input)
    requires s.proc == Triggering(pc)
    ensures var a := TriggerStep(s.db, s.keys, pc, i); StepAlone(s, i) == Solo(After(s.db, a.tx), a.keys, a.next)
  {
    hide TriggerStep;
  }

  lemma ConfirmingAlone(s: Solo, pc: ConfirmPc, i: Input)
    requires s.proc == Confirming(pc)
    ensures var a := ConfirmStep(s.db, s.keys, pc); StepAlone(s, i) == Solo(After(s.db, a.tx), a.keys, a.next)
  {
    hide ConfirmStep;
  }

  function RunAlone(s: Solo, inputs: seq<Input>): Solo {
    if inputs == [] then s else StepAlone(RunAlone(s, inputs[..|inputs| - 1]), inputs[|inputs| - 1])
  }

  /** A database before its first ride: nobody is on trip and nothing is on record. */
  predicate Fresh(db: Db) {
    && db.rides == map[] && db.trips == map[] && db.payments == map[] && db.receipts == map[]
    && db.issued == map[] && db.log == []
    && forall d | d in db.drivers :: db.drivers[d].status != OnTrip
  }

}
