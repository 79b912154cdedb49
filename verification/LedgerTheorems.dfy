/** What sound tables mean to a reader of one row. */
module LedgerTheorems {
  import opened Prelude
  import opened Pricing
  import opened RideStates
  import opened TripClock
  import opened Ledger
  import opened LedgerInvariants

  /** A driver is on trip exactly when an active ride carries the driver, and only one does. */
  lemma OnTripIffOneRide(db: Db, d: DriverId)
    requires Inv(db) && d in db.drivers
    ensures db.drivers[d].status == OnTrip <==> exists r :: Drives(db, r, d)
    ensures forall r, r' | Drives(db, r, d) && Drives(db, r', d) :: r == r'
  {
  }

  /** The index on active drivers can never reject an assignment the driver guard lets
      through. */
  lemma DriverIndexRedundant(db: Db, r: RideId, d: DriverId, otp: string, now: Instant)
    requires Inv(db) && Ok(db, AssignRide(r, d, otp, now))
    ensures !Busy(db, d)
  {
    hide TripsSound, MoneySound;
    forall r' | r' in db.rides ensures !(db.rides[r'].driver == Some(d) && Active(db.rides[r'].status)) {
      assert !Drives(db, r', d);
    }
  }

  /** A trip row exists exactly while its ride is in progress or completed; it has ended
      exactly when the ride completed; a code is set exactly when a driver is. */
  lemma TripInLockstep(db: Db, r: RideId)
    requires Inv(db) && r in db.rides
    ensures r in db.trips <==> db.rides[r].status == InProgress || db.rides[r].status == Completed
    ensures r in db.trips ==> (db.trips[r].status == Ended <==> db.rides[r].status == Completed)
    ensures db.rides[r].otp.Some? <==> db.rides[r].driver.Some?
  {
  }

  /** Once the ride guard of a start has passed there is a code to compare with and no
      trip row in the way; once that of an end has passed its trip row is there, unended. */
  lemma SecondGuardsNeverFail(db: Db, r: RideId, now: Instant)
    requires Inv(db)
    ensures HasStatus(db, r, Arrived) ==> db.rides[r].otp.Some? && Ok(db, StartTrip(r, now))
    ensures HasStatus(db, r, InProgress) ==> r in db.trips && db.trips[r].status != Ended
  {
  }

  /** A completed ride has one payment, and one amount: the ride's, the trip's, the
      payment's and, once paid, the receipt's, which repeats the charged duration. */
  lemma OneAmount(db: Db, r: RideId)
    requires Inv(db) && HasStatus(db, r, Completed)
    ensures exists p :: p in db.payments && db.payments[p].ride == r
    ensures forall p | p in db.payments && db.payments[p].ride == r :: Agrees(db, r, p)
    ensures forall p, p' | p in db.payments && p' in db.payments
              && db.payments[p].ride == r && db.payments[p'].ride == r :: p == p'
  {
    TripOfCompleted(db, r);
    assert Billed(db, r);
    forall p | p in db.payments && db.payments[p].ride == r ensures Agrees(db, r, p) {
      PaymentOnFile(db, p);
      hide PeopleSound, TripsSound, MoneySound, TripFare;
    }
  }

  lemma TripOfCompleted(db: Db, r: RideId)
    requires TripsSound(db) && HasStatus(db, r, Completed)
    ensures r in db.trips && TripFinished(db.quotes, db.rides[r], db.trips[r])
  {
    assert TripSound(db.quotes, db.rides[r], db.trips[r]);
  }

  /** All records of a completed ride tell the same story. */
  ghost predicate Agrees(db: Db, r: RideId, p: PaymentId)
    requires r in db.rides && p in db.payments
  {
    var ride, pay := db.rides[r], db.payments[p];
    && r in db.trips && db.trips[r].endedAt.Some? && db.trips[r].fare.Some? && db.trips[r].distanceM.Some?
    && ride.quote in db.quotes
    && var trip := db.trips[r];
    var charged := ChargedSeconds(trip.startedAt, trip.endedAt.value, trip.pausedSeconds);
    && ride.fareTotal == Some(pay.amount) && trip.fare.value.total == pay.amount
    && trip.fare.value == FinalFare(Rates(ride.tier), trip.distanceM.value, charged, db.quotes[ride.quote].surgeX100)
    && (r in db.receipts <==> pay.status == Succeeded)
    && (r in db.receipts ==>
          && db.receipts[r].total == pay.amount && db.receipts[r].payment == p
          && db.receipts[r].fare == trip.fare && db.receipts[r].durationS == Some(charged))
  }

  // ---- why a cancellation re-reads the driver ----

  /** A cancellation that freed the driver of its authorisation read instead of the one
      its own transaction finds. */
  function CancelOnSnapshot(db: Db, r: RideId, to: RideStatus, snapshot: Option<DriverId>, now: Instant): Db
    requires r in db.rides
  {
    var moved := MoveEffect(db, r, to, now);
    match snapshot
    case Some(d) => FreeDriver(moved, d)
    case None => moved
  }

  /** With an acceptance in between, that would strand the driver: on trip, no ride. */
  lemma SnapshotStrandsDriver(db: Db, r: RideId, d: DriverId, otp: string, now: Instant)
    requires Inv(db) && Ok(db, AssignRide(r, d, otp, now))
    ensures db.rides[r].driver == None
    ensures var taken := Apply(db, AssignRide(r, d, otp, now));
      && Inv(Apply(taken, CancelRide(r, CancelledByRider, None, now)))
      && !Inv(CancelOnSnapshot(taken, r, CancelledByRider, db.rides[r].driver, now))
  {
    var taken := Apply(db, AssignRide(r, d, otp, now));
    TxKeepsInv(db, AssignRide(r, d, otp, now));
    TxKeepsInv(taken, CancelRide(r, CancelledByRider, None, now));
    assert RideSound(db, db.rides[r]);
    assert Drives(taken, r, d);
    hide Inv;
    StrandedIsUnsound(taken, r, d, now);
  }

  lemma StrandedIsUnsound(db: Db, r: RideId, d: DriverId, now: Instant)
    requires Inv(db) && Drives(db, r, d)
    ensures !Inv(CancelOnSnapshot(db, r, CancelledByRider, None, now))
  {
    hide TripsSound, MoneySound;
    var stranded := CancelOnSnapshot(db, r, CancelledByRider, None, now);
    assert forall r' :: Drives(stranded, r', d) ==> r' != r && Drives(db, r', d);
    assert stranded.drivers[d].status == OnTrip;
  }

}
