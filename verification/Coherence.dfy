/** Requests that do not overlap keep the Redis mirrors, the driver pool, the active-ride
    markers and the ride cache in step with Postgres: exactly the same request steps, one
    request at a time. Between two steps of a request some keys lag; `Behind` says which. */
module Coherence {
  import opened Prelude
  import opened Pricing
  import opened RideStates
  import opened Ledger
  import opened LedgerInvariants
  import opened LedgerHistory
  import opened LedgerGrowth
  import opened Redis
  import opened Protocol
  import opened ProtocolSafety

  // ---- keys in step with rows ----

  function MirrorOf(row: Driver): Mirror {
    Mirror(row.status, row.tier, row.city)
  }

  /** Equal in every field but the time of the last update. */
  predicate SameView(a: View, b: View) {
    a == b.(updatedAt := a.updatedAt)
  }

  /** The drivers and rides whose keys may lag behind their rows. */
  datatype Lag = Lag(drivers: set<DriverId>, rides: set<RideId>)

  const NO_LAG := Lag({}, {})

  ghost predicate MirrorsExact(db: Db, k: Keys, late: set<DriverId>) {
    forall d | d in k.mirror && d !in late :: d in db.drivers && k.mirror[d] == MirrorOf(db.drivers[d])
  }

  /** A pooled driver is available and pooled in its own city. */
  ghost predicate PoolExact(db: Db, k: Keys, late: set<DriverId>) {
    forall c, d | (c, d) in k.geo ::
      d in db.drivers && db.drivers[d].city == c && (d !in late ==> db.drivers[d].status == Available)
  }

  predicate MarkerIs(k: Keys, d: DriverId, r: RideId) {
    d in k.marker && k.marker[d] == r
  }

  /** A driver's marker names exactly the driver's active ride. */
  ghost predicate MarkersExact(db: Db, k: Keys, late: set<DriverId>) {
    forall d, r | d !in late :: MarkerIs(k, d, r) <==> Drives(db, r, d)
  }

  ghost predicate CacheExact(db: Db, k: Keys, late: set<RideId>) {
    forall r | r in k.cache && r !in late :: r in db.rides && SameView(k.cache[r], ViewOf(db, r))
  }

  ghost predicate Exact(db: Db, k: Keys, lag: Lag) {
    && MirrorsExact(db, k, lag.drivers) && PoolExact(db, k, lag.drivers) && MarkersExact(db, k, lag.drivers)
    && CacheExact(db, k, lag.rides)
  }

  ghost predicate Coherent(db: Db, k: Keys) {
    Exact(db, k, NO_LAG)
  }

  // ---- what lags while a request is under way ----

  function Only(d: Option<DriverId>): set<DriverId> {
    match d case None => {} case Some(x) => {x}
  }

  function BehindToggle(pc: AvailabilityPc): Lag {
    match pc
    case ClearStale(d, _, _) => Lag({d}, {})
    case MirrorAvailable(d, _, _) => Lag({d}, {})
    case TakeOutstanding(d, _, _) => Lag({d}, {})
    case DropOutstanding(d, _, _, _) => Lag({d}, {})
    case LeavePool(d, _, _) => Lag({d}, {})
    case _ => NO_LAG
  }

  function BehindRelease(pc: ReleasePc, rides: set<RideId>): Lag {
    if pc.PoolReleased? then Lag({}, rides) else Lag({pc.d}, rides)
  }

  function Behind(p: Proc): Lag {
    match p
    case Creating(UncacheNew(r)) => Lag({}, {r})
    case Accepting(LoadCard(d, r)) => Lag({d}, {r})
    case Accepting(MarkDriver(d, r, _, _)) => Lag({d}, {r})
    case Accepting(UncacheTaken(_, r)) => Lag({}, {r})
    case Sweeping(UncacheExpired(r, _, _)) => Lag({}, {r})
    case Cancelling(UncacheCancelled(r, driver)) => Lag(Only(driver), {r})
    case Progressing(UncacheLeg(r)) => Lag({}, {r})
    case Toggling(pc) => BehindToggle(pc)
    case Releasing(pc, Uncaching(r, _)) => BehindRelease(pc, {r})
    case Releasing(pc, _) => BehindRelease(pc, {})
    case Uncaching(r, _) => Lag({}, {r})
    case Starting(ResetDist(r)) => Lag({}, {r})
    case Starting(ClearStartDist(r)) => Lag({}, {r})
    case Starting(UncacheStarted(r)) => Lag({}, {r})
    case _ => NO_LAG
  }

  predicate RowIs(db: Db, d: DriverId, m: Mirror) {
    d in db.drivers && MirrorOf(db.drivers[d]) == m
  }

  predicate InPool(db: Db, d: DriverId, city: City) {
    d in db.drivers && db.drivers[d].status == Available && db.drivers[d].city == city
  }

  predicate IsAvailable(db: Db, d: DriverId) {
    d in db.drivers && db.drivers[d].status == Available
  }

  predicate NoteAccept(db: Db, pc: AcceptPc) {
    match pc
    case LoadCard(d, r) => Drives(db, r, d)
    case MarkDriver(d, r, city, tier) => Drives(db, r, d) && RowIs(db, d, Mirror(OnTrip, tier, city))
    case _ => true
  }

  predicate NoteToggle(db: Db, k: Keys, pc: AvailabilityPc) {
    match pc
    case CommitAvailability(_, _) => true
    case ClearStale(d, tier, city) => RowIs(db, d, Mirror(Available, tier, city))
    case MirrorAvailable(d, tier, city) => RowIs(db, d, Mirror(Available, tier, city)) && d !in k.marker
    case ReadLast(d, city) => InPool(db, d, city)
    case PoolAvailable(d, city, _) => InPool(db, d, city)
    case TakeOutstanding(d, tier, city) => RowIs(db, d, Mirror(Offline, tier, city))
    case DropOutstanding(d, _, tier, city) => RowIs(db, d, Mirror(Offline, tier, city))
    case LeavePool(d, tier, city) => RowIs(db, d, Mirror(Offline, tier, city))
  }

  predicate NoteRelease(db: Db, pc: ReleasePc) {
    match pc
    case LoadDriver(d) => IsAvailable(db, d)
    case MirrorReleased(d, m) => IsAvailable(db, d) && RowIs(db, d, m)
    case PoolReleased(d, city, _) => InPool(db, d, city)
  }

  /** What a request that runs alone also knows, of the rows and keys as they now are. */
  predicate Note(db: Db, k: Keys, p: Proc) {
    match p
    case Done(outcome) =>
      outcome.Shown? ==> outcome.v.id in db.rides && SameView(outcome.v, ViewOf(db, outcome.v.id))
    case Accepting(pc) => NoteAccept(db, pc)
    case Offering(_, after) => after == FINISHED || (after.Sweeping? && after.sweep.NextRow?)
    case Cancelling(UncacheCancelled(_, Some(d))) => IsAvailable(db, d)
    case Toggling(pc) => NoteToggle(db, k, pc)
    case Releasing(pc, after) =>
      NoteRelease(db, pc) && (after == FINISHED || (after.Uncaching? && after.after == FINISHED))
    case Uncaching(_, after) => after == FINISHED
    case Pinging(WritePosition(d, _, Some(m), _, _)) => RowIs(db, d, m)
    case Getting(FillCache(v, _)) => v.id in db.rides && v == ViewOf(db, v.id)
    case _ => true
  }

  ghost predicate InStep(db: Db, k: Keys, p: Proc) {
    Exact(db, k, Behind(p)) && Note(db, k, p)
  }

  // ---- commits ----

  ghost predicate SameDriver(db: Db, db': Db, d: DriverId) {
    && (d in db.drivers ==> d in db'.drivers && db'.drivers[d] == db.drivers[d])
    && (forall r :: Drives(db', r, d) == Drives(db, r, d))
  }

  predicate SameRide(db: Db, db': Db, r: RideId) {
    r in db.rides ==> r in db'.rides && SameView(ViewOf(db, r), ViewOf(db', r))
  }

  /** The driver and the ride whose keys a commit leaves behind. */
  function Touched(db: Db, tx: Tx): Lag {
    match tx
    case MoveRide(r, _, _, _) => Lag({}, {r})
    case CancelRide(r, _, _, _) => Lag(if r in db.rides then Only(db.rides[r].driver) else {}, {r})
    case AssignRide(r, d, _, _) => Lag({d}, {r})
    case SetAvailability(d, _) => Lag({d}, {})
    case StartTrip(r, _) => Lag({}, {r})
    case EndTrip(r, d, _, _, _, _, _, _) => Lag({d}, {r})
    case _ => NO_LAG
  }

  lemma MoveTouchesDrivers(db: Db, tx: Tx, d: DriverId)
    requires PeopleSound(db, {}) && Ok(db, tx) && Justified(db, tx)
    requires tx.MoveRide? || tx.StartTrip?
    ensures SameDriver(db, Apply(db, tx), d)
  {
  }

  lemma CancelTouchesDrivers(db: Db, tx: Tx, d: DriverId)
    requires Ok(db, tx) && tx.CancelRide? && db.rides[tx.r].driver != Some(d)
    ensures SameDriver(db, Apply(db, tx), d)
  {
  }

  lemma EndTouchesDrivers(db: Db, tx: Tx, d: DriverId)
    requires tx.EndTrip? && Ok(db, tx) && Justified(db, tx) && d != tx.d
    ensures SameDriver(db, Apply(db, tx), d)
  {
  }

  lemma AssignTouchesDrivers(db: Db, tx: Tx, d: DriverId)
    requires PeopleSound(db, {}) && tx.AssignRide? && Ok(db, tx) && d != tx.d
    ensures SameDriver(db, Apply(db, tx), d)
  {
  }

  lemma TouchesDrivers(db: Db, tx: Tx, d: DriverId)
    requires PeopleSound(db, {}) && Ok(db, tx) && Justified(db, tx) && d !in Touched(db, tx).drivers
    ensures SameDriver(db, Apply(db, tx), d)
  {
    hide PeopleSound;
    if tx.MoveRide? || tx.StartTrip? {
      MoveTouchesDrivers(db, tx, d);
    } else if tx.CancelRide? {
      CancelTouchesDrivers(db, tx, d);
    } else if tx.EndTrip? {
      EndTouchesDrivers(db, tx, d);
    } else if tx.AssignRide? {
      AssignTouchesDrivers(db, tx, d);
    } else {
      hide ReceiptOf, Justified;
    }
  }

  lemma RideRowKept(db: Db, tx: Tx, r: RideId)
    requires Ok(db, tx) && r in db.rides && r !in Touched(db, tx).rides
    ensures r in Apply(db, tx).rides
    ensures Apply(db, tx).rides[r] == db.rides[r] || tx.RegenerateOtp?
  {
    hide ReceiptOf;
  }

  lemma TouchesRides(db: Db, tx: Tx, r: RideId)
    requires Ok(db, tx) && r !in Touched(db, tx).rides && DriversGrow(db, Apply(db, tx))
    requires r in db.rides && db.rides[r].driver.Some? ==> db.rides[r].driver.value in db.drivers
    ensures SameRide(db, Apply(db, tx), r)
  {
    if r in db.rides {
      if tx.RegenerateOtp? {
      } else {
        RideRowKept(db, tx, r);
        hide Apply, Touched;
      }
    }
  }

  lemma LagAfter(db: Db, db': Db, k: Keys, lag: Lag)
    requires Coherent(db, k) && Extends(db, db')
    requires forall d | d !in lag.drivers :: SameDriver(db, db', d)
    requires forall r | r !in lag.rides :: SameRide(db, db', r)
    ensures Exact(db', k, lag)
  {
  }

  /** After a commit only the keys of the driver and the ride it touched can lag. */
  lemma CommitLags(db: Db, k: Keys, tx: Tx)
    requires Inv(db) && Justified(db, tx) && Coherent(db, k)
    ensures Ok(db, tx) ==> Exact(Apply(db, tx), k, Touched(db, tx))
  {
    hide Inv, Coherent, Justified, Apply, DriversGrow, RidesGrow, SameDriver, SameRide, Touched, Ok;
    if Ok(db, tx) {
      ApplyExtends(db, tx);
      forall d | d !in Touched(db, tx).drivers ensures SameDriver(db, Apply(db, tx), d) {
        TouchesDrivers(db, tx, d) by { SoundPeople(db); }
      }
      forall r | r !in Touched(db, tx).rides ensures SameRide(db, Apply(db, tx), r) {
        TouchesRides(db, tx, r) by { DriverOnFile(db, r); }
      }
      LagAfter(db, Apply(db, tx), k, Touched(db, tx));
    }
  }

  lemma DriverOnFile(db: Db, r: RideId)
    requires Inv(db)
    ensures r in db.rides && db.rides[r].driver.Some? ==> db.rides[r].driver.value in db.drivers
  {
  }

  lemma SoundPeople(db: Db)
    requires Inv(db)
    ensures PeopleSound(db, {})
  {
  }

}
