/** The Postgres side of ride dispatch: tables as maps, and every transaction the
    services commit as one guarded step. `Ok` says when all statements of a transaction
    affect the rows they must and no constraint fails; otherwise it rolls back.

    Two parts of the state are bookkeeping of the model: `log` records the committed
    moves, and `issued` remembers every payment reference ever handed out together with
    its payment, of which the unique psp_ref column holds the latest. */
module Ledger {
  import opened Prelude
  import opened Pricing
  import opened RideStates
  import opened TripClock

  type RiderId = nat
  type DriverId = nat
  type QuoteId = nat
  type RideId = nat
  type PaymentId = nat
  type PspRef = nat
  type City = string

  datatype DriverStatus = Offline | Available | OnTrip

  datatype Card = Card(name: string, vehicleModel: string, plate: string, rating: int)

  datatype Driver = Driver(status: DriverStatus, tier: Tier, city: City, card: Card)

  datatype Route = Route(pickupLat: real, pickupLng: real, dropLat: real, dropLng: real)

  datatype Quote = Quote(
    rider: RiderId, city: City, route: Route, distanceM: int, surgeX100: int,
    prices: map<Tier, int>, expiresAt: Instant)

  datatype PayBy = Upi | CreditCard | Cash

  datatype Ride = Ride(
    rider: RiderId, quote: QuoteId, tier: Tier, route: Route, status: RideStatus,
    driver: Option<DriverId>, otp: Option<string>, payBy: Option<PayBy>,
    fareTotal: Option<int>, cancelReason: Option<string>, createdAt: Instant, updatedAt: Instant)

  datatype TripStatus = Started | Paused | Ended

  datatype Trip = Trip(
    status: TripStatus, startedAt: Instant, endedAt: Option<Instant>, pausedSeconds: int,
    distanceM: Option<int>, fare: Option<Breakdown>)

  datatype PaymentStatus = Pending | Processing | Succeeded | Failed

  datatype Payment = Payment(
    ride: RideId, amount: int, payBy: PayBy, status: PaymentStatus,
    pspRef: Option<PspRef>, retryCount: nat, createdAt: Instant)

  datatype Receipt = Receipt(
    total: int, fare: Option<Breakdown>, payBy: PayBy, payment: PaymentId,
    distanceM: Option<int>, durationS: Option<int>, startedAt: Instant, endedAt: Option<Instant>)

  /** A committed change worth counting. */
  datatype Event =
    | Moved(ride: RideId, from: RideStatus, to: RideStatus)
    | Assigned(ride: RideId, driver: DriverId)
    | Attempted(payment: PaymentId, ref: PspRef)
    | Settled(payment: PaymentId, ref: PspRef, success: bool)

  datatype Db = Db(
    quotes: map<QuoteId, Quote>,
    drivers: map<DriverId, Driver>,
    rides: map<RideId, Ride>,
    trips: map<RideId, Trip>,
    payments: map<PaymentId, Payment>,
    receipts: map<RideId, Receipt>,
    issued: map<PspRef, PaymentId>,
    log: seq<Event>)

  const MAX_RETRIES := 3

  /** An active ride of this driver exists. */
  predicate Busy(db: Db, d: DriverId) {
    exists r :: r in db.rides && db.rides[r].driver == Some(d) && Active(db.rides[r].status)
  }

  predicate RiderBusy(db: Db, rider: RiderId) {
    exists r :: r in db.rides && db.rides[r].rider == rider && Active(db.rides[r].status)
  }

  predicate CanTrigger(p: Payment) {
    p.status == Pending || (p.status == Failed && p.retryCount < MAX_RETRIES)
  }

  /** The payment a reference currently belongs to: SELECT ... WHERE psp_ref = ref. */
  function PaymentOf(db: Db, ref: PspRef): Option<PaymentId> {
    if ref in db.issued && db.issued[ref] in db.payments && db.payments[db.issued[ref]].pspRef == Some(ref)
    then Some(db.issued[ref]) else None
  }

  // ---- transactions ----

  datatype Tx =
    | InsertQuote(q: QuoteId, quote: Quote)
    | InsertRide(r: RideId, rider: RiderId, q: QuoteId, tier: Tier, payBy: PayBy, now: Instant)
      // The status funnel without further statements.
    | MoveRide(r: RideId, from: RideStatus, to: RideStatus, now: Instant)
    | CancelRide(r: RideId, to: RideStatus, reason: Option<string>, now: Instant)
    | AssignRide(r: RideId, d: DriverId, otp: string, now: Instant)
    | RegenerateOtp(r: RideId, rider: RiderId, otp: string, now: Instant)
    | SetAvailability(d: DriverId, available: bool)
    | StartTrip(r: RideId, now: Instant)
    | PauseTrip(r: RideId)
    | ResumeTrip(r: RideId, elapsed: nat)
    | EndTrip(r: RideId, d: DriverId, p: PaymentId, payBy: PayBy, endedAt: Instant,
              pausedSeconds: int, distanceM: int, fare: Breakdown)
    | TriggerPayment(p: PaymentId, ref: PspRef)
    | SettleSuccess(ref: PspRef, r: RideId)
    | SettleFailure(ref: PspRef)

  predicate HasStatus(db: Db, r: RideId, s: RideStatus) {
    r in db.rides && db.rides[r].status == s
  }

  predicate Ok(db: Db, tx: Tx) {
    match tx
    case InsertQuote(q, quote) => q !in db.quotes
    case InsertRide(r, rider, q, tier, _, _) =>
      r !in db.rides && q in db.quotes && tier in db.quotes[q].prices && !RiderBusy(db, rider)
    case MoveRide(r, from, to, _) => HasStatus(db, r, from)
    case CancelRide(r, to, _, _) => r in db.rides && Legal(db.rides[r].status, to)
    case AssignRide(r, d, _, _) =>
      HasStatus(db, r, Matching) && d in db.drivers && db.drivers[d].status == Available
    case RegenerateOtp(r, rider, _, _) =>
      r in db.rides && db.rides[r].rider == rider
      && (db.rides[r].status.DriverAssigned? || db.rides[r].status.DriverArriving? || db.rides[r].status.Arrived?)
    case SetAvailability(d, _) => d in db.drivers && (db.drivers[d].status == OnTrip ==> !Busy(db, d))
    case StartTrip(r, _) => HasStatus(db, r, Arrived) && r !in db.trips
    case PauseTrip(r) => r in db.trips && db.trips[r].status == Started
    case ResumeTrip(r, _) => r in db.trips && db.trips[r].status == Paused
    case EndTrip(r, d, p, _, _, _, _, _) =>
      HasStatus(db, r, InProgress) && r in db.trips && db.trips[r].status != Ended && p !in db.payments
    case TriggerPayment(p, ref) => p in db.payments && CanTrigger(db.payments[p]) && ref !in db.issued
    case SettleSuccess(ref, r) =>
      PaymentOf(db, ref).Some? && db.payments[PaymentOf(db, ref).value].status == Processing && r in db.trips
    case SettleFailure(ref) =>
      PaymentOf(db, ref).Some? && db.payments[PaymentOf(db, ref).value].status == Processing
  }

  function WithRide(db: Db, r: RideId, row: Ride): Db {
    db.(rides := db.rides[r := row])
  }

  function WithDriverStatus(db: Db, d: DriverId, s: DriverStatus): Db
    requires d in db.drivers
  {
    db.(drivers := db.drivers[d := db.drivers[d].(status := s)])
  }

  /** UPDATE drivers SET status = 'available' WHERE id = d AND status = 'on_trip'. */
  function FreeDriver(db: Db, d: DriverId): Db {
    if d in db.drivers && db.drivers[d].status == OnTrip then WithDriverStatus(db, d, Available) else db
  }

  function Logged(db: Db, e: Event): Db {
    db.(log := db.log + [e])
  }

  function InsertRideEffect(db: Db, r: RideId, rider: RiderId, q: QuoteId, tier: Tier, payBy: PayBy, now: Instant): Db
    requires q in db.quotes && tier in db.quotes[q].prices
  {
    WithRide(db, r, Ride(rider, q, tier, db.quotes[q].route, Requested, None, None, Some(payBy),
                         Some(db.quotes[q].prices[tier]), None, now, now))
  }

  function MoveEffect(db: Db, r: RideId, to: RideStatus, now: Instant): Db
    requires r in db.rides
  {
    Logged(WithRide(db, r, db.rides[r].(status := to, updatedAt := now)), Moved(r, db.rides[r].status, to))
  }

  function CancelEffect(db: Db, r: RideId, to: RideStatus, reason: Option<string>, now: Instant): Db
    requires r in db.rides
  {
    var moved := MoveEffect(db, r, to, now);
    var noted := WithRide(moved, r, moved.rides[r].(cancelReason := reason));
    match db.rides[r].driver
    case Some(d) => FreeDriver(noted, d)
    case None => noted
  }

  function AssignEffect(db: Db, r: RideId, d: DriverId, otp: string, now: Instant): Db
    requires r in db.rides && d in db.drivers
  {
    var row := db.rides[r].(status := DriverAssigned, driver := Some(d), otp := Some(otp), updatedAt := now);
    Logged(Logged(WithDriverStatus(WithRide(db, r, row), d, OnTrip),
                  Moved(r, db.rides[r].status, DriverAssigned)), Assigned(r, d))
  }

  function StartEffect(db: Db, r: RideId, now: Instant): Db
    requires r in db.rides
  {
    var moved := MoveEffect(db, r, InProgress, now);
    moved.(trips := db.trips[r := Trip(Started, Column(now), None, 0, None, None)])
  }

  function EndEffect(db: Db, r: RideId, d: DriverId, p: PaymentId, payBy: PayBy, endedAt: Instant,
                     pausedSeconds: int, distanceM: int, fare: Breakdown): Db
    requires r in db.rides && r in db.trips
  {
    var moved := MoveEffect(db, r, Completed, endedAt);
    var priced := WithRide(moved, r, moved.rides[r].(fareTotal := Some(fare.total)));
    var ended := priced.(trips := db.trips[r := db.trips[r].(
      status := Ended, endedAt := Some(Column(endedAt)), pausedSeconds := pausedSeconds,
      distanceM := Some(distanceM), fare := Some(fare))]);
    FreeDriver(ended, d).(payments := db.payments[p := Payment(r, fare.total, payBy, Pending, None, 0, endedAt)])
  }

  function WithPayment(db: Db, p: PaymentId, row: Payment): Db {
    db.(payments := db.payments[p := row])
  }

  function TriggerEffect(db: Db, p: PaymentId, ref: PspRef): Db
    requires p in db.payments
  {
    Logged(WithPayment(db, p, db.payments[p].(status := Processing, pspRef := Some(ref))).(issued := db.issued[ref := p]),
           Attempted(p, ref))
  }

  /** The receipt copies the trip row; its duration is recomputed from the stored times. */
  function ReceiptOf(p: PaymentId, pay: Payment, trip: Trip): Receipt {
    var duration := if trip.endedAt.None? then None
                    else Some(ChargedSeconds(trip.startedAt, trip.endedAt.value, trip.pausedSeconds));
    Receipt(pay.amount, trip.fare, pay.payBy, p, trip.distanceM, duration, trip.startedAt, trip.endedAt)
  }

  function SuccessEffect(db: Db, p: PaymentId, ref: PspRef, r: RideId): Db
    requires p in db.payments && r in db.trips
  {
    var pay := db.payments[p];
    var paid := Logged(WithPayment(db, p, pay.(status := Succeeded)), Settled(p, ref, true));
    // ON CONFLICT (ride_id) DO NOTHING
    if r in db.receipts then paid
    else paid.(receipts := db.receipts[r := ReceiptOf(p, pay, db.trips[r])])
  }

  function FailureEffect(db: Db, p: PaymentId, ref: PspRef): Db
    requires p in db.payments
  {
    var pay := db.payments[p];
    Logged(WithPayment(db, p, pay.(status := Failed, retryCount := pay.retryCount + 1)), Settled(p, ref, false))
  }

  function Effect(db: Db, tx: Tx): Db
    requires Ok(db, tx)
  {
    match tx
    case InsertQuote(q, quote) => db.(quotes := db.quotes[q := quote])
    case InsertRide(r, rider, q, tier, payBy, now) => InsertRideEffect(db, r, rider, q, tier, payBy, now)
    case MoveRide(r, _, to, now) => MoveEffect(db, r, to, now)
    case CancelRide(r, to, reason, now) => CancelEffect(db, r, to, reason, now)
    case AssignRide(r, d, otp, now) => AssignEffect(db, r, d, otp, now)
    case RegenerateOtp(r, _, otp, now) =>
      WithRide(db, r, db.rides[r].(otp := Some(otp), updatedAt := now))
    case SetAvailability(d, available) => WithDriverStatus(db, d, if available then Available else Offline)
    case StartTrip(r, now) => StartEffect(db, r, now)
    case PauseTrip(r) => db.(trips := db.trips[r := db.trips[r].(status := Paused)])
    case ResumeTrip(r, elapsed) =>
      db.(trips := db.trips[r := db.trips[r].(status := Started, pausedSeconds := db.trips[r].pausedSeconds + elapsed)])
    case EndTrip(r, d, p, payBy, endedAt, pausedSeconds, distanceM, fare) =>
      EndEffect(db, r, d, p, payBy, endedAt, pausedSeconds, distanceM, fare)
    case TriggerPayment(p, ref) => TriggerEffect(db, p, ref)
    case SettleSuccess(ref, r) => SuccessEffect(db, PaymentOf(db, ref).value, ref, r)
    case SettleFailure(ref) => FailureEffect(db, PaymentOf(db, ref).value, ref)
  }

  function Apply(db: Db, tx: Tx): Db {
    if Ok(db, tx) then Effect(db, tx) else db
  }

}
