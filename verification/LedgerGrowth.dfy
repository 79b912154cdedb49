/** What no transaction ever takes back. A request that has read such a fact may act on
    it later, however many other transactions commit in between. */
module LedgerGrowth {
  import opened Prelude
  import opened RideStates
  import opened TripClock
  import opened Ledger
  import opened LedgerInvariants

  predicate DriverGrows(a: Driver, b: Driver) {
    b.tier == a.tier && b.city == a.city && b.card == a.card
  }

  predicate RideGrows(a: Ride, b: Ride) {
    && b.rider == a.rider && b.quote == a.quote && b.tier == a.tier && b.route == a.route
    && b.payBy == a.payBy && b.createdAt == a.createdAt
    && (a.driver.Some? ==> b.driver == a.driver)
    && Rank(a.status) <= Rank(b.status)
  }

  predicate PaymentGrows(a: Payment, b: Payment) {
    && b.ride == a.ride && b.amount == a.amount && b.payBy == a.payBy && a.retryCount <= b.retryCount
    && (a.status == Succeeded ==> b == a)
  }

  ghost predicate DriversGrow(db: Db, db': Db) {
    forall d | d in db.drivers :: d in db'.drivers && DriverGrows(db.drivers[d], db'.drivers[d])
  }

  ghost predicate RidesGrow(db: Db, db': Db) {
    forall r | r in db.rides :: r in db'.rides && RideGrows(db.rides[r], db'.rides[r])
  }

  ghost predicate TripsGrow(db: Db, db': Db) {
    forall r | r in db.trips :: r in db'.trips && db'.trips[r].startedAt == db.trips[r].startedAt
  }

  ghost predicate PaymentsGrow(db: Db, db': Db) {
    forall p | p in db.payments :: p in db'.payments && PaymentGrows(db.payments[p], db'.payments[p])
  }

  ghost predicate IssuedGrows(db: Db, db': Db) {
    forall ref | ref in db.issued :: ref in db'.issued && db'.issued[ref] == db.issued[ref]
  }

  /** Receipts never change, and a superseded reference is never current again. */
  ghost predicate SettledGrows(db: Db, db': Db) {
    && (forall r | r in db.receipts :: r in db'.receipts && db'.receipts[r] == db.receipts[r])
    && (forall ref | ref in db.issued && PaymentOf(db, ref).None? :: PaymentOf(db', ref).None?)
  }

  ghost predicate Extends(db: Db, db': Db) {
    && QuotesKept(db, db') && DriversGrow(db, db') && RidesGrow(db, db') && TripsGrow(db, db')
    && PaymentsGrow(db, db') && IssuedGrows(db, db') && SettledGrows(db, db')
  }

  lemma ExtendsTransitive(a: Db, b: Db, c: Db)
    requires Extends(a, b) && Extends(b, c)
    ensures Extends(a, c)
  {
  }

  lemma QuotesOnlyGrow(db: Db, tx: Tx)
    requires Ok(db, tx)
    ensures QuotesKept(db, Apply(db, tx))
  {
    hide ReceiptOf;
  }

  lemma DriversOnlyGrow(db: Db, tx: Tx)
    requires Ok(db, tx)
    ensures DriversGrow(db, Apply(db, tx))
  {
    if tx.CancelRide? {
      CancelOnlyFrees(db, tx);
    } else if tx.EndTrip? {
      EndOnlyFrees(db, tx);
    } else {
      hide ReceiptOf, CancelEffect, EndEffect;
    }
  }

  lemma FreeingGrows(db: Db, d: DriverId)
    ensures DriversGrow(db, FreeDriver(db, d))
  {
  }

  lemma CancelOnlyFrees(db: Db, tx: Tx)
    requires tx.CancelRide? && Ok(db, tx)
    ensures DriversGrow(db, Apply(db, tx))
  {
    if db.rides[tx.r].driver.Some? { FreeingGrows(db, db.rides[tx.r].driver.value); }
    hide ReceiptOf, EndEffect, Legal;
  }

  lemma EndOnlyFrees(db: Db, tx: Tx)
    requires tx.EndTrip? && Ok(db, tx)
    ensures DriversGrow(db, Apply(db, tx))
  {
    FreeingGrows(db, tx.d);
    hide ReceiptOf, CancelEffect;
  }

  lemma TripsOnlyGrow(db: Db, tx: Tx)
    requires Ok(db, tx)
    ensures TripsGrow(db, Apply(db, tx))
  {
    hide ReceiptOf;
  }

  /** A driver is only written where there was none, and no status moves down. */
  lemma RidesOnlyGrow(db: Db, tx: Tx)
    requires PeopleSound(db, {}) && Ok(db, tx) && Justified(db, tx)
    ensures RidesGrow(db, Apply(db, tx))
  {
    if tx.MoveRide? || tx.StartTrip? {
      MoveOnlyGrows(db, tx);
    } else if tx.CancelRide? {
      CancelOnlyGrows(db, tx);
    } else if tx.EndTrip? {
      EndOnlyGrows(db, tx);
    } else if tx.AssignRide? {
      assert RideSound(db, db.rides[tx.r]);
      hide PeopleSound;
    } else {
      hide PeopleSound, ReceiptOf;
    }
  }

  lemma MoveOnlyGrows(db: Db, tx: Tx)
    requires (tx.MoveRide? || tx.StartTrip?) && Ok(db, tx) && Justified(db, tx)
    ensures RidesGrow(db, Apply(db, tx))
  {
    hide ReceiptOf, CancelEffect, EndEffect;
  }

  lemma CancelOnlyGrows(db: Db, tx: Tx)
    requires tx.CancelRide? && Ok(db, tx)
    ensures RidesGrow(db, Apply(db, tx))
  {
    LegalRaisesRank(db.rides[tx.r].status, tx.to);
    hide ReceiptOf, EndEffect, Legal;
  }

  lemma EndOnlyGrows(db: Db, tx: Tx)
    requires tx.EndTrip? && Ok(db, tx)
    ensures RidesGrow(db, Apply(db, tx))
  {
  }

  lemma PaymentsOnlyGrow(db: Db, tx: Tx)
    requires Ok(db, tx)
    ensures PaymentsGrow(db, Apply(db, tx))
  {
    if tx.SettleSuccess? || tx.SettleFailure? {
      SettlingOnlyGrows(db, tx);
    } else {
      hide ReceiptOf, SuccessEffect, FailureEffect;
    }
  }

  lemma SettlingOnlyGrows(db: Db, tx: Tx)
    requires (tx.SettleSuccess? || tx.SettleFailure?) && Ok(db, tx)
    ensures PaymentsGrow(db, Apply(db, tx))
  {
    hide ReceiptOf;
  }

  lemma IssuedOnlyGrows(db: Db, tx: Tx)
    requires Ok(db, tx)
    ensures IssuedGrows(db, Apply(db, tx))
  {
    hide ReceiptOf;
  }

  lemma ReceiptsOnlyGrow(db: Db, tx: Tx)
    requires Ok(db, tx)
    ensures SettledGrows(db, Apply(db, tx))
  {
    if tx.SettleSuccess? || tx.SettleFailure? || tx.TriggerPayment? || tx.EndTrip? {
      PaymentsSettleOnce(db, tx);
    } else {
      hide ReceiptOf, SuccessEffect, FailureEffect, TriggerEffect, EndEffect;
    }
  }

  lemma PaymentsSettleOnce(db: Db, tx: Tx)
    requires (tx.SettleSuccess? || tx.SettleFailure? || tx.TriggerPayment? || tx.EndTrip?) && Ok(db, tx)
    ensures SettledGrows(db, Apply(db, tx))
  {
    hide ReceiptOf, CancelEffect, AssignEffect;
  }

  lemma ApplyExtends(db: Db, tx: Tx)
    requires Inv(db) && Justified(db, tx)
    ensures Extends(db, Apply(db, tx))
  {
    hide PeopleSound, TripsSound, MoneySound, RidesGrow, Effect, Justified;
    if Ok(db, tx) {
      QuotesOnlyGrow(db, tx);
      DriversOnlyGrow(db, tx);
      RidesOnlyGrow(db, tx);
      TripsOnlyGrow(db, tx);
      PaymentsOnlyGrow(db, tx);
      IssuedOnlyGrows(db, tx);
      ReceiptsOnlyGrow(db, tx);
    } else {
      ExtendsReflexive(db);
    }
  }

  lemma ExtendsReflexive(db: Db)
    ensures Extends(db, db)
  {
  }

}
