/** What every committed transaction keeps, whatever order transactions commit in. */
module LedgerInvariants {
  import opened Prelude
  import opened Pricing
  import opened RideStates
  import opened TripClock
  import opened Ledger

  // ---- what a request has established when it commits ----

  /** Moves made through the plain funnel: those that change nothing but the status. */
  predicate PlainMove(from: RideStatus, to: RideStatus) {
    || (from.Requested? && to.Matching?)
    || (from.Matching? && to.Expired?)
    || (from.DriverAssigned? && to.DriverArriving?)
    || (from.DriverArriving? && to.Arrived?)
  }

  /** The fare of a trip: metered distance and charged seconds at the booked tier's rates
      and the quoted surge. */
  function TripFare(ride: Ride, quote: Quote, startedAt: Instant, endedAt: Instant, pausedSeconds: int, distanceM: int)
    : Breakdown
  {
    FinalFare(Rates(ride.tier), distanceM, ChargedSeconds(startedAt, endedAt, pausedSeconds), quote.surgeX100)
  }

  /** Facts read earlier that a transaction relies on without testing them again. */
  ghost predicate Justified(db: Db, tx: Tx) {
    match tx
    case MoveRide(_, from, to, _) => PlainMove(from, to)
    case CancelRide(_, to, _, _) => Cancelled(to)
    case EndTrip(r, d, _, _, endedAt, pausedSeconds, distanceM, fare) =>
      && pausedSeconds >= 0
      && r in db.rides && db.rides[r].quote in db.quotes && r in db.trips
      && db.rides[r].driver == Some(d)
      && fare == TripFare(db.rides[r], db.quotes[db.rides[r].quote], db.trips[r].startedAt, endedAt, pausedSeconds, distanceM)
    case SettleSuccess(ref, r) =>
      ref in db.issued && db.issued[ref] in db.payments && db.payments[db.issued[ref]].ride == r
    case _ => true
  }

  // ---- drivers and riders ----

  ghost predicate RideSound(db: Db, ride: Ride) {
    && ride.quote in db.quotes
    && (ride.driver.Some? ==> ride.driver.value in db.drivers)
    && (Driven(ride.status) ==> ride.driver.Some?)
    && (ride.status.Requested? || ride.status.Matching? || ride.status.Expired? ==> ride.driver.None?)
    && (ride.otp.Some? <==> ride.driver.Some?)
  }

  predicate Drives(db: Db, r: RideId, d: DriverId) {
    r in db.rides && db.rides[r].driver == Some(d) && Active(db.rides[r].status)
  }

  /** A driver of an active ride is on trip, and drives no other active ride. */
  ghost predicate DriversExclusive(db: Db) {
    && (forall r, d | Drives(db, r, d) :: d in db.drivers && db.drivers[d].status == OnTrip)
    && (forall r, r', d | Drives(db, r, d) && Drives(db, r', d) :: r == r')
  }

  /** Outside `except`, a driver on trip drives an active ride. */
  ghost predicate NoOrphans(db: Db, except: set<DriverId>) {
    forall d | d in db.drivers && db.drivers[d].status == OnTrip && d !in except :: exists r :: Drives(db, r, d)
  }

  ghost predicate RidersExclusive(db: Db) {
    forall r, r' | r in db.rides && r' in db.rides && db.rides[r].rider == db.rides[r'].rider
      && Active(db.rides[r].status) && Active(db.rides[r'].status) :: r == r'
  }

  ghost predicate PeopleSound(db: Db, except: set<DriverId>) {
    && (forall r | r in db.rides :: RideSound(db, db.rides[r]))
    && DriversExclusive(db) && NoOrphans(db, except) && RidersExclusive(db)
  }

  // ---- trips ----

  predicate Underway(s: RideStatus) {
    s.InProgress? || s.Completed?
  }

  ghost predicate TripSound(quotes: map<QuoteId, Quote>, ride: Ride, trip: Trip) {
    && trip.startedAt == Column(trip.startedAt) && trip.pausedSeconds >= 0
    && (trip.status == Ended <==> ride.status.Completed?)
    && (if trip.status != Ended then trip.endedAt == None
        else TripFinished(quotes, ride, trip))
  }

  /** The row of an ended trip prices itself. */
  ghost predicate TripFinished(quotes: map<QuoteId, Quote>, ride: Ride, trip: Trip) {
    && trip.endedAt.Some? && trip.distanceM.Some? && ride.quote in quotes
    && trip.fare == Some(TripFare(ride, quotes[ride.quote], trip.startedAt, trip.endedAt.value,
                                  trip.pausedSeconds, trip.distanceM.value))
    && ride.fareTotal == Some(trip.fare.value.total)
  }

  /** A trip row exists exactly while its ride is in progress or completed. */
  ghost predicate TripsSound(db: Db) {
    && (forall r | r in db.trips :: r in db.rides)
    && (forall r | r in db.rides :: r in db.trips <==> Underway(db.rides[r].status))
    && (forall r | r in db.trips :: TripSound(db.quotes, db.rides[r], db.trips[r]))
  }

  // ---- money ----

  ghost predicate PaymentSound(db: Db, p: PaymentId)
    requires p in db.payments
  {
    var pay := db.payments[p];
    && HasStatus(db, pay.ride, Completed)
    && db.rides[pay.ride].fareTotal == Some(pay.amount)
    && (pay.status == Pending <==> pay.pspRef.None?)
    && (pay.pspRef.Some? ==> pay.pspRef.value in db.issued && db.issued[pay.pspRef.value] == p)
    && (pay.status == Succeeded <==> pay.ride in db.receipts)
    && pay.ride in db.trips
    && (pay.status == Succeeded ==> db.receipts[pay.ride] == ReceiptOf(p, pay, db.trips[pay.ride]))
  }

  ghost predicate Billed(db: Db, r: RideId) {
    exists p :: p in db.payments && db.payments[p].ride == r
  }

  ghost predicate PaymentsSound(db: Db) {
    forall p | p in db.payments :: PaymentSound(db, p)
  }

  ghost predicate OnePaymentPerRide(db: Db) {
    forall p, p' | p in db.payments && p' in db.payments && db.payments[p].ride == db.payments[p'].ride :: p == p'
  }

  ghost predicate AllBilled(db: Db) {
    && (forall r | HasStatus(db, r, Completed) :: Billed(db, r))
    && (forall r | r in db.receipts :: Billed(db, r))
  }

  ghost predicate IssuedSound(db: Db) {
    forall ref | ref in db.issued :: db.issued[ref] in db.payments
  }

  /** A completed ride has exactly one payment, a receipt exactly when it succeeded. */
  ghost predicate MoneySound(db: Db) {
    PaymentsSound(db) && OnePaymentPerRide(db) && AllBilled(db) && IssuedSound(db)
  }

  ghost predicate Sound(db: Db, except: set<DriverId>) {
    PeopleSound(db, except) && TripsSound(db) && MoneySound(db)
  }

  ghost predicate Inv(db: Db) {
    Sound(db, {})
  }

  // ---- framing ----

  ghost predicate QuotesKept(db: Db, db': Db) {
    forall q | q in db.quotes :: q in db'.quotes && db'.quotes[q] == db.quotes[q]
  }

  /** Two versions of a ride row that no trip and no payment can tell apart. */
  predicate SameToTrip(a: Ride, b: Ride) {
    && a.tier == b.tier && a.quote == b.quote && a.fareTotal == b.fareTotal
    && a.status.Completed? == b.status.Completed? && a.status.InProgress? == b.status.InProgress?
  }

  ghost predicate RidesSameToTrips(db: Db, db': Db) {
    forall r | r in db.rides || r in db'.rides ::
      r in db'.rides && if r in db.rides then SameToTrip(db.rides[r], db'.rides[r]) else !Underway(db'.rides[r].status)
  }

  lemma PeopleFrame(db: Db, db': Db, except: set<DriverId>)
    requires PeopleSound(db, except) && db'.rides == db.rides && db'.drivers == db.drivers && QuotesKept(db, db')
    ensures PeopleSound(db', except)
  {
    assert forall r, d :: Drives(db', r, d) == Drives(db, r, d);
    forall d | d in db'.drivers && db'.drivers[d].status == OnTrip && d !in except ensures exists r :: Drives(db', r, d) {
      var r :| Drives(db, r, d);
      assert Drives(db', r, d);
    }
  }

  lemma TripsFrame(db: Db, db': Db)
    requires TripsSound(db) && db'.trips == db.trips && QuotesKept(db, db') && RidesSameToTrips(db, db')
    ensures TripsSound(db')
  {
  }

  lemma MoneyFrame(db: Db, db': Db)
    requires MoneySound(db) && RidesSameToTrips(db, db')
    requires db'.payments == db.payments && db'.receipts == db.receipts && db'.issued == db.issued
    requires forall r | HasStatus(db, r, Completed) && r in db.trips :: r in db'.trips && db'.trips[r] == db.trips[r]
    ensures MoneySound(db')
  {
    hide ReceiptOf;
    forall p | p in db'.payments ensures PaymentSound(db', p) {
      assert PaymentSound(db, p);
    }
    forall r | HasStatus(db', r, Completed) ensures Billed(db', r) {
      assert HasStatus(db, r, Completed) && Billed(db, r);
    }
    forall r | r in db'.receipts ensures Billed(db', r) {
      assert Billed(db, r);
    }
  }

  /** Only ride r and the drivers change, and no trip can tell. */
  ghost predicate OnlyRide(db: Db, db': Db, r: RideId) {
    && r in db.rides && r in db'.rides && db'.rides == db.rides[r := db'.rides[r]]
    && SameToTrip(db.rides[r], db'.rides[r])
    && SameButPeople(db, db')
  }

  predicate SameButPeople(db: Db, db': Db) {
    && db'.quotes == db.quotes && db'.trips == db.trips && db'.payments == db.payments
    && db'.receipts == db.receipts && db'.issued == db.issued
  }

  predicate SameButMoney(db: Db, db': Db) {
    db'.quotes == db.quotes && db'.trips == db.trips && db'.rides == db.rides && db'.drivers == db.drivers
  }

  lemma OnlyRideFrame(db: Db, db': Db, r: RideId)
    requires TripsSound(db) && MoneySound(db) && OnlyRide(db, db', r)
    ensures TripsSound(db') && MoneySound(db')
  {
    hide TripsSound, MoneySound;
    TripsFrame(db, db');
    MoneyFrame(db, db');
  }

  // ---- every transaction keeps them ----

  lemma InsertQuoteKeeps(db: Db, tx: Tx)
    requires Inv(db) && tx.InsertQuote? && Ok(db, tx)
    ensures Inv(Apply(db, tx))
  {
    hide PeopleSound, TripsSound, MoneySound;
    var db' := Apply(db, tx);
    PeopleFrame(db, db', {});
    TripsFrame(db, db');
    MoneyFrame(db, db');
  }

  lemma InsertRideKeeps(db: Db, tx: Tx)
    requires Inv(db) && tx.InsertRide? && Ok(db, tx)
    ensures Inv(Apply(db, tx))
  {
    hide PeopleSound, TripsSound, MoneySound;
    InsertRidePeople(db, tx);
    NewRideFrame(db, Apply(db, tx), tx.r);
  }

  lemma NewRideFrame(db: Db, db': Db, r: RideId)
    requires TripsSound(db) && MoneySound(db) && SameButPeople(db, db')
    requires r !in db.rides && r in db'.rides && db'.rides == db.rides[r := db'.rides[r]] && !Underway(db'.rides[r].status)
    ensures TripsSound(db') && MoneySound(db')
  {
    hide TripsSound, MoneySound;
    TripsFrame(db, db');
    MoneyFrame(db, db');
  }

  lemma InsertRidePeople(db: Db, tx: Tx)
    requires PeopleSound(db, {}) && tx.InsertRide? && Ok(db, tx)
    ensures PeopleSound(Apply(db, tx), {})
  {
    var db' := Apply(db, tx);
    assert forall r, d :: Drives(db', r, d) == Drives(db, r, d);
    forall d | d in db'.drivers && db'.drivers[d].status == OnTrip ensures exists r :: Drives(db', r, d) {
      var r :| Drives(db, r, d);
      assert Drives(db', r, d);
    }
  }

  /** Nobody's current ride changes. */
  ghost predicate SameDriving(db: Db, db': Db) {
    && db'.drivers == db.drivers && db'.rides.Keys == db.rides.Keys
    && (forall r | r in db.rides :: SameDrivenRide(db.rides[r], db'.rides[r]) && RideSound(db', db'.rides[r]))
  }

  predicate SameDrivenRide(a: Ride, b: Ride) {
    && b.rider == a.rider && b.driver == a.driver && (Active(b.status) ==> Active(a.status))
    && (a.driver.Some? ==> Active(b.status) == Active(a.status))
  }

  lemma PeopleSameDriving(db: Db, db': Db, except: set<DriverId>)
    requires PeopleSound(db, except) && SameDriving(db, db')
    ensures PeopleSound(db', except)
  {
    assert forall r, d :: Drives(db', r, d) == Drives(db, r, d);
    forall d | d in db'.drivers && db'.drivers[d].status == OnTrip && d !in except ensures exists r :: Drives(db', r, d) {
      var r :| Drives(db, r, d);
      assert Drives(db', r, d);
    }
  }

  /** A ride ends and its driver becomes available. */
  lemma PeopleRelease(db: Db, db': Db, r: RideId, d: DriverId)
    requires PeopleSound(db, {}) && Drives(db, r, d)
    requires r in db'.rides && db'.rides == db.rides[r := db'.rides[r]]
    requires db'.rides[r].rider == db.rides[r].rider && db'.rides[r].driver == Some(d) && !Active(db'.rides[r].status)
    requires d in db.drivers && db'.drivers == db.drivers[d := db.drivers[d].(status := Available)]
    requires db'.quotes == db.quotes && RideSound(db, db'.rides[r])
    ensures PeopleSound(db', {})
  {
    assert forall r', d' :: Drives(db', r', d') <==> r' != r && Drives(db, r', d');
    forall d' | d' in db'.drivers && db'.drivers[d'].status == OnTrip ensures exists r' :: Drives(db', r', d') {
      var r' :| Drives(db, r', d');
      assert Drives(db', r', d');
    }
  }

  lemma MoveRideKeeps(db: Db, tx: Tx)
    requires Inv(db) && tx.MoveRide? && Ok(db, tx) && Justified(db, tx)
    ensures Inv(Apply(db, tx))
  {
    hide TripsSound, MoneySound;
    var db' := Apply(db, tx);
    OnlyRideFrame(db, db', tx.r);
    assert SameDriving(db, db') by {
      assert RideSound(db, db.rides[tx.r]);
    }
    hide PeopleSound, SameDriving;
    PeopleSameDriving(db, db', {});
  }

  lemma RegenerateOtpKeeps(db: Db, tx: Tx)
    requires Inv(db) && tx.RegenerateOtp? && Ok(db, tx)
    ensures Inv(Apply(db, tx))
  {
    hide TripsSound, MoneySound;
    var db' := Apply(db, tx);
    OnlyRideFrame(db, db', tx.r);
    assert SameDriving(db, db') by {
      assert RideSound(db, db.rides[tx.r]);
    }
    hide PeopleSound, SameDriving;
    PeopleSameDriving(db, db', {});
  }

  lemma CancelRideKeeps(db: Db, tx: Tx)
    requires Inv(db) && tx.CancelRide? && Ok(db, tx) && Justified(db, tx)
    ensures Inv(Apply(db, tx))
  {
    hide PeopleSound, TripsSound, MoneySound, ReceiptOf;
    CancelRidePeople(db, tx);
    OnlyRideFrame(db, Apply(db, tx), tx.r);
  }

  lemma CancelRidePeople(db: Db, tx: Tx)
    requires PeopleSound(db, {}) && tx.CancelRide? && Ok(db, tx) && Justified(db, tx)
    ensures PeopleSound(Apply(db, tx), {})
  {
    if db.rides[tx.r].driver.None? {
      hide ReceiptOf;
      PeopleSameDriving(db, Apply(db, tx), {});
    } else {
      CancelReleases(db, tx);
    }
  }

  lemma CancelReleases(db: Db, tx: Tx)
    requires PeopleSound(db, {}) && tx.CancelRide? && Ok(db, tx) && Justified(db, tx)
    requires db.rides[tx.r].driver.Some?
    ensures PeopleSound(Apply(db, tx), {})
  {
    var d := db.rides[tx.r].driver.value;
    assert RideSound(db, db.rides[tx.r]);
    assert Drives(db, tx.r, d);
    PeopleRelease(db, Apply(db, tx), tx.r, d);
  }

  lemma AssignRideKeeps(db: Db, tx: Tx)
    requires Inv(db) && tx.AssignRide? && Ok(db, tx)
    ensures Inv(Apply(db, tx))
  {
    hide PeopleSound, TripsSound, MoneySound;
    AssignRidePeople(db, tx);
    OnlyRideFrame(db, Apply(db, tx), tx.r);
  }

  lemma AssignRidePeople(db: Db, tx: Tx)
    requires PeopleSound(db, {}) && tx.AssignRide? && Ok(db, tx)
    ensures PeopleSound(Apply(db, tx), {})
  {
    var db' := Apply(db, tx);
    assert RideSound(db, db.rides[tx.r]);
    assert forall r, d :: Drives(db', r, d) <==> if r == tx.r then d == tx.d else Drives(db, r, d);
    forall d | d in db'.drivers && db'.drivers[d].status == OnTrip ensures exists r :: Drives(db', r, d) {
      if d == tx.d {
        assert Drives(db', tx.r, d);
      } else {
        var r :| Drives(db, r, d);
        assert Drives(db', r, d);
      }
    }
  }

  lemma SetAvailabilityKeeps(db: Db, tx: Tx)
    requires Inv(db) && tx.SetAvailability? && Ok(db, tx)
    ensures Inv(Apply(db, tx))
  {
    SetAvailabilityHeals(db, tx);
  }

  /** Even where the driver is an orphan, on trip without an active ride, going online
      or offline succeeds and leaves the tables sound. */
  lemma SetAvailabilityHeals(db: Db, tx: Tx)
    requires tx.SetAvailability? && Sound(db, {tx.d}) && Ok(db, tx)
    ensures Inv(Apply(db, tx))
  {
    var db' := Apply(db, tx);
    SetAvailabilityPeople(db, tx);
    hide PeopleSound, TripsSound, MoneySound;
    TripsFrame(db, db');
    MoneyFrame(db, db');
  }

  lemma SetAvailabilityPeople(db: Db, tx: Tx)
    requires tx.SetAvailability? && PeopleSound(db, {tx.d}) && Ok(db, tx)
    ensures PeopleSound(Apply(db, tx), {})
  {
    var db' := Apply(db, tx);
    assert forall r, d :: Drives(db', r, d) == Drives(db, r, d);
    assert forall r :: !Drives(db, r, tx.d);
    forall d | d in db'.drivers && db'.drivers[d].status == OnTrip ensures exists r :: Drives(db', r, d) {
      var r :| Drives(db, r, d);
      assert Drives(db', r, d);
    }
  }

  lemma StartTripKeeps(db: Db, tx: Tx)
    requires Inv(db) && tx.StartTrip? && Ok(db, tx)
    ensures Inv(Apply(db, tx))
  {
    hide PeopleSound, TripsSound, MoneySound, Ok, Effect;
    StartTripPeople(db, tx);
    StartTripTrips(db, tx);
    StartTripMoney(db, tx);
  }

  lemma StartTripPeople(db: Db, tx: Tx)
    requires PeopleSound(db, {}) && tx.StartTrip? && Ok(db, tx)
    ensures PeopleSound(Apply(db, tx), {})
  {
    assert SameDriving(db, Apply(db, tx)) by {
      assert RideSound(db, db.rides[tx.r]);
    }
    hide PeopleSound, SameDriving;
    PeopleSameDriving(db, Apply(db, tx), {});
  }

  lemma StartTripTrips(db: Db, tx: Tx)
    requires TripsSound(db) && tx.StartTrip? && Ok(db, tx)
    ensures TripsSound(Apply(db, tx))
  {
    hide FinalFare;
    var db' := Apply(db, tx);
    assert Column(Column(tx.now)) == Column(tx.now);
    forall r | r in db'.trips ensures TripSound(db'.quotes, db'.rides[r], db'.trips[r]) {
      assert r != tx.r ==> TripSound(db.quotes, db.rides[r], db.trips[r]);
    }
  }

  lemma StartTripMoney(db: Db, tx: Tx)
    requires MoneySound(db) && tx.StartTrip? && Ok(db, tx)
    ensures MoneySound(Apply(db, tx))
  {
    var db' := Apply(db, tx);
    forall p | p in db'.payments ensures PaymentSound(db', p) {
      assert PaymentSound(db, p);
    }
    forall r | HasStatus(db', r, Completed) ensures Billed(db', r) {
      assert HasStatus(db, r, Completed) && Billed(db, r);
    }
    forall r | r in db'.receipts ensures Billed(db', r) {
      assert Billed(db, r);
    }
  }

  lemma PauseKeeps(db: Db, tx: Tx)
    requires Inv(db) && (tx.PauseTrip? || tx.ResumeTrip?) && Ok(db, tx)
    ensures Inv(Apply(db, tx))
  {
    hide PeopleSound, TripsSound, MoneySound;
    var db' := Apply(db, tx);
    PauseTrips(db, tx);
    PeopleFrame(db, db', {});
    PauseLeavesEnded(db, tx);
    MoneyFrame(db, db');
  }

  lemma PauseTrips(db: Db, tx: Tx)
    requires TripsSound(db) && (tx.PauseTrip? || tx.ResumeTrip?) && Ok(db, tx)
    ensures TripsSound(Apply(db, tx))
  {
    hide TripFinished;
    var db' := Apply(db, tx);
    forall r | r in db'.trips ensures TripSound(db'.quotes, db'.rides[r], db'.trips[r]) {
      assert TripSound(db.quotes, db.rides[r], db.trips[r]);
    }
  }

  lemma PauseLeavesEnded(db: Db, tx: Tx)
    requires TripsSound(db) && (tx.PauseTrip? || tx.ResumeTrip?) && Ok(db, tx)
    ensures forall r | HasStatus(db, r, Completed) && r in db.trips :: Apply(db, tx).trips[r] == db.trips[r]
  {
  }

  lemma EndTripKeeps(db: Db, tx: Tx)
    requires Inv(db) && tx.EndTrip? && Ok(db, tx) && Justified(db, tx)
    ensures Inv(Apply(db, tx))
  {
    EndTripPeople(db, tx);
    EndTripTrips(db, tx);
    EndTripMoney(db, tx);
  }

  lemma EndTripPeople(db: Db, tx: Tx)
    requires PeopleSound(db, {}) && tx.EndTrip? && Ok(db, tx) && Justified(db, tx)
    ensures PeopleSound(Apply(db, tx), {})
  {
    var db' := Apply(db, tx);
    assert RideSound(db, db.rides[tx.r]);
    assert Drives(db, tx.r, tx.d);
    hide TripFare;
    PeopleRelease(db, db', tx.r, tx.d);
  }

  /** The ended row prices itself: storing the end does not change the seconds charged. */
  lemma EndedTripSound(db: Db, tx: Tx)
    requires TripsSound(db) && tx.EndTrip? && Ok(db, tx) && Justified(db, tx)
    ensures var db' := Apply(db, tx); TripSound(db'.quotes, db'.rides[tx.r], db'.trips[tx.r])
  {
    assert TripSound(db.quotes, db.rides[tx.r], db.trips[tx.r]);
    hide TripsSound, FinalFare, ChargedSeconds;
    StoringKeepsCharge(db.trips[tx.r].startedAt, tx.endedAt, tx.pausedSeconds);
  }

  lemma EndTripTrips(db: Db, tx: Tx)
    requires TripsSound(db) && tx.EndTrip? && Ok(db, tx) && Justified(db, tx)
    ensures TripsSound(Apply(db, tx))
  {
    EndedTripSound(db, tx);
    hide TripSound, TripFare, Justified;
  }

  /** Ride r completes and is billed by a new payment p. */
  ghost predicate BilledNow(db: Db, db': Db, r: RideId, p: PaymentId) {
    && HasStatus(db, r, InProgress) && HasStatus(db', r, Completed) && db'.rides == db.rides[r := db'.rides[r]]
    && r in db.trips && r in db'.trips && db'.trips == db.trips[r := db'.trips[r]]
    && p !in db.payments && p in db'.payments && db'.payments == db.payments[p := db'.payments[p]]
    && db'.payments[p].ride == r && db'.rides[r].fareTotal == Some(db'.payments[p].amount)
    && db'.payments[p].status == Pending && db'.payments[p].pspRef == None
    && db'.receipts == db.receipts && db'.issued == db.issued
  }

  lemma EndTripMoney(db: Db, tx: Tx)
    requires MoneySound(db) && tx.EndTrip? && Ok(db, tx)
    ensures MoneySound(Apply(db, tx))
  {
    hide MoneySound;
    assert BilledNow(db, Apply(db, tx), tx.r, tx.p);
    hide BilledNow, Apply;
    BillingMoney(db, Apply(db, tx), tx.r, tx.p);
  }

  lemma BillingMoney(db: Db, db': Db, r: RideId, p: PaymentId)
    requires MoneySound(db) && BilledNow(db, db', r, p)
    ensures MoneySound(db')
  {
    BillingPayments(db, db', r, p);
    BillingBills(db, db', r, p);
    NotYetBilled(db, r);
    hide PaymentsSound, AllBilled, HasStatus;
  }

  lemma BillingBills(db: Db, db': Db, r: RideId, p: PaymentId)
    requires AllBilled(db) && BilledNow(db, db', r, p)
    ensures AllBilled(db')
  {
    BilledKept(db, db');
    PaymentBills(db', p);
    hide Billed;
    assert forall r' :: HasStatus(db', r', Completed) ==> HasStatus(db, r', Completed) || r' == r;
  }

  lemma NotYetBilled(db: Db, r: RideId)
    requires PaymentsSound(db) && AllBilled(db) && HasStatus(db, r, InProgress)
    ensures forall p | p in db.payments :: db.payments[p].ride != r
    ensures r !in db.receipts
  {
  }

  lemma BillingPayments(db: Db, db': Db, r: RideId, p: PaymentId)
    requires PaymentsSound(db) && AllBilled(db) && BilledNow(db, db', r, p)
    ensures PaymentsSound(db')
  {
  }

  lemma SettlementKeeps(db: Db, tx: Tx)
    requires Inv(db) && (tx.TriggerPayment? || tx.SettleSuccess? || tx.SettleFailure?)
    requires Ok(db, tx) && Justified(db, tx)
    ensures Inv(Apply(db, tx))
  {
    hide PeopleSound, TripsSound, MoneySound;
    var db' := Apply(db, tx);
    if tx.TriggerPayment? { TriggerMoney(db, tx); } else { SettleMoney(db, tx); }
    assert SameButMoney(db, db');
    hide Effect, Ok, Justified;
    PeopleFrame(db, db', {});
    TripsFrame(db, db');
  }

  lemma TriggerMoney(db: Db, tx: Tx)
    requires MoneySound(db) && tx.TriggerPayment? && Ok(db, tx)
    ensures MoneySound(Apply(db, tx))
  {
    hide ReceiptOf, MoneySound;
    var db' := Apply(db, tx);
    assert PaymentSound(db, tx.p) by { PaymentOnFile(db, tx.p); }
    assert PaymentSound(db', tx.p);
    assert OnlyPayment(db, db', tx.p);
    PaymentFrame(db, db', tx.p);
  }

  lemma PaymentOnFile(db: Db, p: PaymentId)
    requires MoneySound(db) && p in db.payments
    ensures PaymentSound(db, p)
  {
  }

  /** Only payment p, its receipt and a new reference to it change. */
  ghost predicate OnlyPayment(db: Db, db': Db, p: PaymentId) {
    && p in db.payments && p in db'.payments && db'.payments == db.payments[p := db'.payments[p]]
    && db'.payments[p].ride == db.payments[p].ride
    && db'.rides == db.rides && db'.trips == db.trips
    && ReceiptOnly(db.receipts, db'.receipts, db.payments[p].ride)
    && IssuedOnly(db.issued, db'.issued, p)
  }

  ghost predicate ReceiptOnly(receipts: map<RideId, Receipt>, receipts': map<RideId, Receipt>, r: RideId) {
    receipts' == receipts || (r in receipts' && receipts' == receipts[r := receipts'[r]])
  }

  ghost predicate IssuedOnly(issued: map<PspRef, PaymentId>, issued': map<PspRef, PaymentId>, p: PaymentId) {
    && (forall ref | ref in issued :: ref in issued' && issued'[ref] == issued[ref])
    && (forall ref | ref in issued' :: ref in issued || issued'[ref] == p)
  }

  lemma PaymentFrame(db: Db, db': Db, p: PaymentId)
    requires MoneySound(db) && OnlyPayment(db, db', p) && PaymentSound(db', p)
    ensures MoneySound(db')
  {
    hide PaymentsSound, AllBilled, PaymentSound;
    OtherPayments(db, db', p);
    StillBilled(db, db', p);
  }

  lemma OtherPayments(db: Db, db': Db, p: PaymentId)
    requires PaymentsSound(db) && OnePaymentPerRide(db) && OnlyPayment(db, db', p) && PaymentSound(db', p)
    ensures PaymentsSound(db')
  {
  }

  lemma StillBilled(db: Db, db': Db, p: PaymentId)
    requires AllBilled(db) && OnlyPayment(db, db', p)
    ensures AllBilled(db')
  {
    BilledKept(db, db');
    hide Billed;
    assert forall r :: HasStatus(db', r, Completed) == HasStatus(db, r, Completed);
    assert Billed(db', db.payments[p].ride) by { PaymentBills(db', p); }
  }

  lemma PaymentBills(db: Db, p: PaymentId)
    requires p in db.payments
    ensures Billed(db, db.payments[p].ride)
  {
  }

  /** Payment rows keep their ride, so whatever was billed stays billed. */
  lemma BilledKept(db: Db, db': Db)
    requires forall p | p in db.payments :: p in db'.payments && db'.payments[p].ride == db.payments[p].ride
    ensures forall r | Billed(db, r) :: Billed(db', r)
  {
  }

  lemma SettleMoney(db: Db, tx: Tx)
    requires MoneySound(db) && (tx.SettleSuccess? || tx.SettleFailure?) && Ok(db, tx) && Justified(db, tx)
    ensures MoneySound(Apply(db, tx))
  {
    hide MoneySound, TripFare;
    var db', p := Apply(db, tx), PaymentOf(db, tx.ref).value;
    PaymentOnFile(db, p);
    assert PaymentSound(db', p);
    assert OnlyPayment(db, db', p);
    PaymentFrame(db, db', p);
  }

  /** Every transaction that commits on facts established before keeps the tables sound. */
  lemma TxKeepsInv(db: Db, tx: Tx)
    requires Inv(db) && Justified(db, tx)
    ensures Inv(Apply(db, tx))
  {
    if Ok(db, tx) {
      hide Inv, Effect, Justified;
      match tx
      case InsertQuote(_, _) => InsertQuoteKeeps(db, tx);
      case InsertRide(_, _, _, _, _, _) => InsertRideKeeps(db, tx);
      case MoveRide(_, _, _, _) => MoveRideKeeps(db, tx);
      case CancelRide(_, _, _, _) => CancelRideKeeps(db, tx);
      case AssignRide(_, _, _, _) => AssignRideKeeps(db, tx);
      case RegenerateOtp(_, _, _, _) => RegenerateOtpKeeps(db, tx);
      case SetAvailability(_, _) => SetAvailabilityKeeps(db, tx);
      case StartTrip(_, _) => StartTripKeeps(db, tx);
      case PauseTrip(_) => PauseKeeps(db, tx);
      case ResumeTrip(_, _) => PauseKeeps(db, tx);
      case EndTrip(_, _, _, _, _, _, _, _) => EndTripKeeps(db, tx);
      case TriggerPayment(_, _) => SettlementKeeps(db, tx);
      case SettleSuccess(_, _) => SettlementKeeps(db, tx);
      case SettleFailure(_) => SettlementKeeps(db, tx);
    }
  }

}
