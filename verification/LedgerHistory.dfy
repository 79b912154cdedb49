/** What the committed transactions add up to over a whole run: every status write is a
    legal move, a driver is written once, and payment attempts are counted and bounded. */
module LedgerHistory {
  import opened Prelude
  import opened RideStates
  import opened Ledger
  import opened LedgerInvariants

  datatype Query =
    | MovesOf(r: RideId)
    | AssignmentsOf(r: RideId)
    | AttemptsOn(p: PaymentId)
    | FailuresOf(p: PaymentId)
    | SuccessesOf(p: PaymentId)
    | AttemptsUnder(ref: PspRef)
    | SettlementsOf(ref: PspRef)

  predicate Matches(e: Event, q: Query) {
    match q
    case MovesOf(r) => e.Moved? && e.ride == r
    case AssignmentsOf(r) => e.Assigned? && e.ride == r
    case AttemptsOn(p) => e.Attempted? && e.payment == p
    case FailuresOf(p) => e.Settled? && e.payment == p && !e.success
    case SuccessesOf(p) => e.Settled? && e.payment == p && e.success
    case AttemptsUnder(ref) => e.Attempted? && e.ref == ref
    case SettlementsOf(ref) => e.Settled? && e.ref == ref
  }

  function Count(log: seq<Event>, q: Query): nat {
    if log == [] then 0
    else Count(log[..|log| - 1], q) + if Matches(log[|log| - 1], q) then 1 else 0
  }

  /** The status the logged moves of a ride lead to. */
  function StatusAfter(log: seq<Event>, r: RideId): RideStatus {
    if log == [] then Requested
    else
      var e := log[|log| - 1];
      if Matches(e, MovesOf(r)) then e.to else StatusAfter(log[..|log| - 1], r)
  }

  /** Every logged move starts where the previous ones of its ride led, and is legal. */
  predicate PathsLegal(log: seq<Event>) {
    log == [] ||
    var e := log[|log| - 1];
    && PathsLegal(log[..|log| - 1])
    && (e.Moved? ==> e.from == StatusAfter(log[..|log| - 1], e.ride) && Legal(e.from, e.to))
  }

  lemma Snoc(log: seq<Event>, e: Event, q: Query)
    ensures Count(log + [e], q) == Count(log, q) + if Matches(e, q) then 1 else 0
  {
  }

  lemma SnocMove(log: seq<Event>, e: Event, r: RideId)
    ensures StatusAfter(log + [e], r) == if Matches(e, MovesOf(r)) then e.to else StatusAfter(log, r)
    ensures PathsLegal(log + [e]) <==>
      PathsLegal(log) && (e.Moved? ==> e.from == StatusAfter(log, e.ride) && Legal(e.from, e.to))
  {
  }

  /** Legal paths are short. */
  lemma {:induction false} MovesBounded(log: seq<Event>, r: RideId)
    requires PathsLegal(log)
    ensures Count(log, MovesOf(r)) <= Rank(StatusAfter(log, r)) <= 6
  {
    if log != [] {
      var n := |log| - 1;
      MovesBounded(log[..n], r);
      if log[n].Moved? { LegalRaisesRank(log[n].from, log[n].to); }
    }
  }

  lemma {:induction false} Counted(log: seq<Event>, e: Event, q: Query)
    requires e in log && Matches(e, q)
    ensures Count(log, q) > 0
  {
    var n := |log| - 1;
    if log[n] != e { Counted(log[..n], e, q); }
  }

  // ---- rides ----

  /** Its status is where its moves lead; its driver was assigned exactly once. */
  predicate RideLogged(log: seq<Event>, r: RideId, status: RideStatus, driver: Option<DriverId>) {
    && status == StatusAfter(log, r)
    && Count(log, AssignmentsOf(r)) == (if driver.Some? then 1 else 0)
    && (driver.Some? ==> Assigned(r, driver.value) in log)
  }

  predicate RideLoggedIn(db: Db, r: RideId) {
    if r in db.rides then RideLogged(db.log, r, db.rides[r].status, db.rides[r].driver)
    else RideLogged(db.log, r, Requested, None)
  }

  ghost predicate RidesLogged(db: Db) {
    PathsLegal(db.log) && forall r: RideId :: RideLoggedIn(db, r)
  }

  // ---- payments ----

  predicate InFlight(s: PaymentStatus) {
    s == Processing || s == Succeeded
  }

  /** Retries are the failures, at most three; every attempt failed, succeeded or is open. */
  predicate PaymentLogged(log: seq<Event>, p: PaymentId, status: PaymentStatus, retries: nat) {
    && Count(log, FailuresOf(p)) == retries <= MAX_RETRIES
    && Count(log, AttemptsOn(p)) == retries + (if InFlight(status) then 1 else 0) <= MAX_RETRIES
    && Count(log, SuccessesOf(p)) == (if status == Succeeded then 1 else 0)
    && (status == Pending ==> retries == 0)
  }

  predicate PaymentLoggedIn(db: Db, p: PaymentId) {
    if p in db.payments then PaymentLogged(db.log, p, db.payments[p].status, db.payments[p].retryCount)
    else PaymentLogged(db.log, p, Pending, 0)
  }

  /** A reference whose payment is still waiting for it. */
  predicate Open(db: Db, ref: PspRef) {
    PaymentOf(db, ref).Some? && db.payments[PaymentOf(db, ref).value].status == Processing
  }

  predicate RefLogged(db: Db, ref: PspRef) {
    && Count(db.log, AttemptsUnder(ref)) == (if ref in db.issued then 1 else 0)
    && Count(db.log, SettlementsOf(ref)) == (if ref in db.issued && !Open(db, ref) then 1 else 0)
  }

  ghost predicate PaymentsLogged(db: Db) {
    (forall p: PaymentId :: PaymentLoggedIn(db, p)) && (forall ref: PspRef :: RefLogged(db, ref))
  }

  ghost predicate Chronicle(db: Db) {
    RidesLogged(db) && PaymentsLogged(db)
  }

  // ---- every transaction keeps the chronicle ----

  predicate SameToPayments(db: Db, db': Db) {
    db'.payments == db.payments && db'.issued == db.issued
  }

  ghost predicate SameToRides(db: Db, db': Db) {
    forall r: RideId | r in db.rides || r in db'.rides ::
      r in db'.rides && if r in db.rides then db'.rides[r].status == db.rides[r].status && db'.rides[r].driver == db.rides[r].driver
                        else db'.rides[r].status == Requested && db'.rides[r].driver == None
  }

  predicate RideEvent(e: Event) {
    e.Moved? || e.Assigned?
  }

  /** An entry about a ride leaves what the log says of payments alone. */
  lemma RideEventSparesPayments(db: Db, db': Db, e: Event)
    requires PaymentsLogged(db) && SameToPayments(db, db') && RideEvent(e) && db'.log == db.log + [e]
    ensures PaymentsLogged(db')
  {
    forall p: PaymentId ensures PaymentLoggedIn(db', p) {
      assert PaymentLoggedIn(db, p);
      Snoc(db.log, e, FailuresOf(p));
      Snoc(db.log, e, AttemptsOn(p));
      Snoc(db.log, e, SuccessesOf(p));
    }
    forall ref: PspRef ensures RefLogged(db', ref) {
      assert RefLogged(db, ref);
      Snoc(db.log, e, AttemptsUnder(ref));
      Snoc(db.log, e, SettlementsOf(ref));
    }
  }

  lemma PaymentEventSparesRides(db: Db, db': Db, e: Event)
    requires RidesLogged(db) && SameToRides(db, db') && !RideEvent(e) && db'.log == db.log + [e]
    ensures RidesLogged(db')
  {
    SnocMove(db.log, e, 0);
    forall r: RideId ensures RideLoggedIn(db', r) {
      assert RideLoggedIn(db, r);
      Snoc(db.log, e, AssignmentsOf(r));
      SnocMove(db.log, e, r);
    }
  }

  lemma NothingLogged(db: Db, db': Db)
    requires Chronicle(db) && SameToRides(db, db') && SameToPayments(db, db') && db'.log == db.log
    ensures Chronicle(db')
  {
    forall r: RideId ensures RideLoggedIn(db', r) { assert RideLoggedIn(db, r); }
    forall p: PaymentId ensures PaymentLoggedIn(db', p) { assert PaymentLoggedIn(db, p); }
    forall ref: PspRef ensures RefLogged(db', ref) { assert RefLogged(db, ref); }
  }

  /** Ride r moves, legally, and nobody's driver is touched. */
  predicate OneMove(db: Db, db': Db, r: RideId) {
    && r in db.rides && r in db'.rides && db'.rides == db.rides[r := db'.rides[r]]
    && db'.rides[r].driver == db.rides[r].driver
    && Legal(db.rides[r].status, db'.rides[r].status)
    && db'.log == db.log + [Moved(r, db.rides[r].status, db'.rides[r].status)]
  }

  lemma OneMoveLogged(db: Db, db': Db, r: RideId)
    requires RidesLogged(db) && OneMove(db, db', r)
    ensures RidesLogged(db')
  {
    var e := Moved(r, db.rides[r].status, db'.rides[r].status);
    assert RideLoggedIn(db, r);
    SnocMove(db.log, e, r);
    forall r': RideId ensures RideLoggedIn(db', r') {
      assert RideLoggedIn(db, r');
      Snoc(db.log, e, AssignmentsOf(r'));
      SnocMove(db.log, e, r');
    }
  }

  lemma MoveKeepsChronicle(db: Db, tx: Tx)
    requires Chronicle(db) && Ok(db, tx) && Justified(db, tx)
    requires tx.MoveRide? || tx.CancelRide? || tx.StartTrip?
    ensures Chronicle(Apply(db, tx))
  {
    hide RidesLogged, PaymentsLogged;
    var db' := Apply(db, tx);
    assert OneMove(db, db', tx.r);
    OneMoveLogged(db, db', tx.r);
    RideEventSparesPayments(db, db', Moved(tx.r, db.rides[tx.r].status, db'.rides[tx.r].status));
  }

  lemma EndKeepsChronicle(db: Db, tx: Tx)
    requires IssuedSound(db) && Chronicle(db) && Ok(db, tx) && tx.EndTrip?
    ensures Chronicle(Apply(db, tx))
  {
    hide IssuedSound, RidesLogged, PaymentsLogged;
    var db' := Apply(db, tx);
    assert OneMove(db, db', tx.r);
    OneMoveLogged(db, db', tx.r);
    NewPaymentLogged(db, db', tx.p, Moved(tx.r, InProgress, Completed));
  }

  lemma NewPaymentLogged(db: Db, db': Db, p: PaymentId, e: Event)
    requires PaymentsLogged(db) && db'.issued == db.issued && IssuedSound(db)
    requires p !in db.payments && p in db'.payments && db'.payments == db.payments[p := db'.payments[p]]
    requires db'.payments[p].status == Pending && db'.payments[p].retryCount == 0
    requires RideEvent(e) && db'.log == db.log + [e]
    ensures PaymentsLogged(db')
  {
    forall p': PaymentId ensures PaymentLoggedIn(db', p') {
      assert PaymentLoggedIn(db, p');
      Snoc(db.log, e, FailuresOf(p'));
      Snoc(db.log, e, AttemptsOn(p'));
      Snoc(db.log, e, SuccessesOf(p'));
    }
    forall ref: PspRef ensures RefLogged(db', ref) {
      assert RefLogged(db, ref);
      Snoc(db.log, e, AttemptsUnder(ref));
      Snoc(db.log, e, SettlementsOf(ref));
    }
  }

  lemma AssignKeepsChronicle(db: Db, tx: Tx)
    requires Chronicle(db) && Ok(db, tx) && tx.AssignRide? && db.rides[tx.r].driver == None
    ensures Chronicle(Apply(db, tx))
  {
    hide RidesLogged, PaymentsLogged;
    var r, d := tx.r, tx.d;
    var moved := MoveEffect(db, r, DriverAssigned, tx.now);
    assert OneMove(db, moved, r);
    OneMoveLogged(db, moved, r);
    RideEventSparesPayments(db, moved, Moved(r, Matching, DriverAssigned));
    AssignedLogged(moved, Apply(db, tx), r, d);
    RideEventSparesPayments(moved, Apply(db, tx), Assigned(r, d));
  }

  lemma NoDriverWhileMatching(db: Db, r: RideId)
    requires PeopleSound(db, {}) && HasStatus(db, r, Matching)
    ensures db.rides[r].driver == None
  {
  }

  lemma AssignedLogged(db: Db, db': Db, r: RideId, d: DriverId)
    requires RidesLogged(db) && r in db.rides && r in db'.rides && db'.rides == db.rides[r := db'.rides[r]]
    requires db.rides[r].driver == None && db'.rides[r].driver == Some(d) && db'.rides[r].status == db.rides[r].status
    requires db'.log == db.log + [Assigned(r, d)]
    ensures RidesLogged(db')
  {
    SnocMove(db.log, Assigned(r, d), r);
    forall r': RideId ensures RideLoggedIn(db', r') {
      assert RideLoggedIn(db, r');
      Snoc(db.log, Assigned(r, d), AssignmentsOf(r'));
      SnocMove(db.log, Assigned(r, d), r');
    }
  }

  /** Payment p takes a reference never used before. */
  predicate Attempt(db: Db, db': Db, p: PaymentId, ref: PspRef) {
    && p in db.payments && CanTrigger(db.payments[p]) && ref !in db.issued
    && db'.issued == db.issued[ref := p]
    && db'.payments == db.payments[p := db.payments[p].(status := Processing, pspRef := Some(ref))]
    && db'.log == db.log + [Attempted(p, ref)]
  }

  /** Payment p, waiting for the reference, is settled. */
  predicate Settlement(db: Db, db': Db, p: PaymentId, ref: PspRef, success: bool) {
    && PaymentOf(db, ref) == Some(p) && db.payments[p].status == Processing
    && db'.issued == db.issued
    && db'.payments == db.payments[p := db.payments[p].(
         status := if success then Succeeded else Failed,
         retryCount := db.payments[p].retryCount + if success then 0 else 1)]
    && db'.log == db.log + [Settled(p, ref, success)]
  }

  lemma AttemptLogged(db: Db, db': Db, p: PaymentId, ref: PspRef)
    requires IssuedSound(db) && PaymentsLogged(db) && Attempt(db, db', p, ref)
    ensures PaymentsLogged(db')
  {
    var e := Attempted(p, ref);
    assert PaymentLoggedIn(db, p);
    forall q: PaymentId ensures PaymentLoggedIn(db', q) {
      assert PaymentLoggedIn(db, q);
      Snoc(db.log, e, FailuresOf(q));
      Snoc(db.log, e, AttemptsOn(q));
      Snoc(db.log, e, SuccessesOf(q));
    }
    forall other: PspRef ensures RefLogged(db', other) {
      AttemptKeepsRef(db, db', p, ref, other);
    }
  }

  lemma AttemptKeepsRef(db: Db, db': Db, p: PaymentId, ref: PspRef, other: PspRef)
    requires IssuedSound(db) && RefLogged(db, other) && Attempt(db, db', p, ref)
    ensures RefLogged(db', other)
  {
  }

  lemma SettlementLogged(db: Db, db': Db, p: PaymentId, ref: PspRef, success: bool)
    requires PaymentsLogged(db) && Settlement(db, db', p, ref, success)
    ensures PaymentsLogged(db')
  {
    var e := Settled(p, ref, success);
    forall q: PaymentId ensures PaymentLoggedIn(db', q) {
      assert PaymentLoggedIn(db, q);
      Snoc(db.log, e, FailuresOf(q));
      Snoc(db.log, e, AttemptsOn(q));
      Snoc(db.log, e, SuccessesOf(q));
    }
    forall other: PspRef ensures RefLogged(db', other) {
      SettlementKeepsRef(db, db', p, ref, success, other);
    }
  }

  lemma SettlementKeepsRef(db: Db, db': Db, p: PaymentId, ref: PspRef, success: bool, other: PspRef)
    requires RefLogged(db, other) && Settlement(db, db', p, ref, success)
    ensures RefLogged(db', other)
  {
  }

  lemma TriggerKeepsChronicle(db: Db, tx: Tx)
    requires IssuedSound(db) && Chronicle(db) && Ok(db, tx) && tx.TriggerPayment?
    ensures Chronicle(Apply(db, tx))
  {
    hide IssuedSound, RidesLogged, PaymentsLogged;
    var db' := Apply(db, tx);
    assert Attempt(db, db', tx.p, tx.ref);
    AttemptLogged(db, db', tx.p, tx.ref);
    PaymentEventSparesRides(db, db', Attempted(tx.p, tx.ref));
  }

  lemma SettleKeepsChronicle(db: Db, tx: Tx)
    requires Chronicle(db) && Ok(db, tx) && (tx.SettleSuccess? || tx.SettleFailure?)
    ensures Chronicle(Apply(db, tx))
  {
    hide RidesLogged, PaymentsLogged, ReceiptOf;
    var db', p := Apply(db, tx), PaymentOf(db, tx.ref).value;
    assert Settlement(db, db', p, tx.ref, tx.SettleSuccess?);
    SettlementLogged(db, db', p, tx.ref, tx.SettleSuccess?);
    PaymentEventSparesRides(db, db', Settled(p, tx.ref, tx.SettleSuccess?));
  }

  lemma OthersLogNothing(db: Db, tx: Tx)
    requires Chronicle(db) && Ok(db, tx)
    requires tx.InsertQuote? || tx.InsertRide? || tx.RegenerateOtp? || tx.SetAvailability? || tx.PauseTrip? || tx.ResumeTrip?
    ensures Chronicle(Apply(db, tx))
  {
    hide Chronicle, ReceiptOf;
    NothingLogged(db, Apply(db, tx));
  }

  lemma TxKeepsChronicle(db: Db, tx: Tx)
    requires Inv(db) && Chronicle(db) && Justified(db, tx)
    ensures Chronicle(Apply(db, tx))
  {
    hide Chronicle, Effect;
    if Ok(db, tx) {
      if tx.MoveRide? || tx.CancelRide? || tx.StartTrip? {
        MoveKeepsChronicle(db, tx);
      } else if tx.EndTrip? {
        EndKeepsChronicle(db, tx);
      } else if tx.AssignRide? {
        NoDriverWhileMatching(db, tx.r);
        AssignKeepsChronicle(db, tx);
      } else if tx.TriggerPayment? {
        TriggerKeepsChronicle(db, tx);
      } else if tx.SettleSuccess? || tx.SettleFailure? {
        SettleKeepsChronicle(db, tx);
      } else {
        OthersLogNothing(db, tx);
      }
    }
  }

  // ---- what the chronicle means ----

  /** A ride changes status at most six times, and every change on record is legal. */
  lemma AtMostSixMoves(db: Db, r: RideId)
    requires Chronicle(db)
    ensures Count(db.log, MovesOf(r)) <= 6
    ensures r in db.rides ==> Count(db.log, MovesOf(r)) <= Rank(db.rides[r].status)
  {
    MovesBounded(db.log, r);
    assert RideLoggedIn(db, r);
  }

  lemma {:induction false} EveryMoveIsLegal(log: seq<Event>, e: Event)
    requires PathsLegal(log) && e in log && e.Moved?
    ensures Legal(e.from, e.to) && Rank(e.from) < Rank(e.to)
  {
    var n := |log| - 1;
    if log[n] == e {
      LegalRaisesRank(e.from, e.to);
    } else {
      EveryMoveIsLegal(log[..n], e);
    }
  }

  /** Every assignment ever committed for a ride named the driver it has now. */
  lemma AssignedOnce(db: Db, r: RideId, d: DriverId)
    requires Chronicle(db) && Assigned(r, d) in db.log
    ensures r in db.rides && db.rides[r].driver == Some(d)
    ensures Count(db.log, AssignmentsOf(r)) == 1
  {
    assert RideLoggedIn(db, r);
    Counted(db.log, Assigned(r, d), AssignmentsOf(r));
    var d' := db.rides[r].driver.value;
    if d' != d { TwoCounted(db.log, Assigned(r, d), Assigned(r, d'), AssignmentsOf(r)); }
  }

  lemma {:induction false} TwoCounted(log: seq<Event>, e: Event, e': Event, q: Query)
    requires e in log && e' in log && e != e' && Matches(e, q) && Matches(e', q)
    ensures Count(log, q) >= 2
  {
    var n := |log| - 1;
    if log[n] == e {
      Counted(log[..n], e', q);
    } else if log[n] == e' {
      Counted(log[..n], e, q);
    } else {
      TwoCounted(log[..n], e, e', q);
    }
  }

  /** Over the whole run: a reference settles a payment at most once, retries are the
      failures and never exceed three, attempts never exceed three, so a payment is
      touched at most six times after it is created. */
  lemma PaymentsTerminate(db: Db, p: PaymentId, ref: PspRef)
    requires Chronicle(db)
    ensures Count(db.log, SettlementsOf(ref)) <= 1
    ensures p in db.payments ==> Count(db.log, FailuresOf(p)) == db.payments[p].retryCount
    ensures Count(db.log, FailuresOf(p)) <= 3 && Count(db.log, AttemptsOn(p)) <= 3
    ensures Count(db.log, SuccessesOf(p)) + Count(db.log, FailuresOf(p)) <= Count(db.log, AttemptsOn(p))
  {
    assert RefLogged(db, ref) && PaymentLoggedIn(db, p);
  }

  /** A confirmation changes something exactly while its payment waits for that very
      reference; superseded, unknown and already settled references change nothing. */
  lemma OnlyOpenReferencesSettle(db: Db, ref: PspRef, r: RideId)
    requires MoneySound(db) && Justified(db, SettleSuccess(ref, r))
    ensures Open(db, ref) <==> Apply(db, SettleSuccess(ref, r)) != db
    ensures Open(db, ref) <==> Apply(db, SettleFailure(ref)) != db
  {
    hide MoneySound, Effect;
    if Open(db, ref) {
      BilledTripExists(db, PaymentOf(db, ref).value);
      SettlingIsLogged(db, SettleSuccess(ref, r));
      SettlingIsLogged(db, SettleFailure(ref));
    }
  }

  lemma BilledTripExists(db: Db, p: PaymentId)
    requires MoneySound(db) && p in db.payments
    ensures db.payments[p].ride in db.trips
  {
  }

  lemma SettlingIsLogged(db: Db, tx: Tx)
    requires (tx.SettleSuccess? || tx.SettleFailure?) && Ok(db, tx)
    ensures |Apply(db, tx).log| == |db.log| + 1
  {
  }

}
