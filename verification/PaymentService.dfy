/** Payment attempts and the provider's confirmations. */
module PaymentService {
  import opened Prelude
  import opened RideStates
  import opened TripClock
  import opened Ledger
  import opened LedgerInvariants
  import opened LedgerHistory
  import opened Redis
  import opened Protocol
  import opened Stores

  /** The row's psp_ref column holds the reference. */
  predicate Bears(db: Db, p: PaymentId, ref: PspRef) {
    p in db.payments && db.payments[p].pspRef == Some(ref)
  }

  /** The reference column is unique, and `issued` finds its row. */
  lemma ReferenceFindsRow(db: Db, p: PaymentId, ref: PspRef)
    requires Inv(db)
    ensures Bears(db, p, ref) <==> PaymentOf(db, ref) == Some(p)
  {
  }

  /** The seconds a trip row says were driven, if it has an end. */
  ghost function DrivenSeconds(trip: Trip): Option<int> {
    match trip.endedAt
    case None => None
    case Some(end) =>
      var d := end - trip.startedAt;
      var whole := if d >= 0 then d / 1_000_000_000 else -((-d) / 1_000_000_000);
      Some(if whole < trip.pausedSeconds then 0 else whole - trip.pausedSeconds)
  }

  /** The receipt of a payment: what was paid, how, and the trip's own figures. */
  ghost function Written(p: PaymentId, pay: Payment, trip: Trip): Receipt {
    Receipt(pay.amount, trip.fare, pay.payBy, p, trip.distanceM, DrivenSeconds(trip), trip.startedAt, trip.endedAt)
  }

  /** Only payments, references, receipts and the record differ. */
  predicate OnlyMoney(a: Db, b: Db) {
    b.quotes == a.quotes && b.drivers == a.drivers && b.rides == a.rides && b.trips == a.trips
  }

  /** What a confirmation does: the payment waiting under the reference, if there is one,
      succeeds with its receipt or fails with one retry more, as the provider says. */
  ghost predicate ConfirmedAs(db: Db, db': Db, ref: PspRef, success: bool, known: bool) {
    && OnlyMoney(db, db') && db'.issued == db.issued
    && (known <==> exists p :: Bears(db, p, ref)) && (!known ==> db' == db)
    && forall p | Bears(db, p, ref) ::
         var pay := db.payments[p];
         if pay.status != Processing then db' == db
         else if success then
           && db'.payments == db.payments[p := pay.(status := Succeeded)] && pay.ride in db.trips
           && db'.receipts == db.receipts[pay.ride := Written(p, pay, db.trips[pay.ride])]
         else
           && db'.payments == db.payments[p := pay.(status := Failed, retryCount := pay.retryCount + 1)]
           && db'.receipts == db.receipts
  }

  /** What a trigger does: the ride's payment, if the rider may start or repeat it, waits
      under the new reference; refused as exhausted exactly after three failures. */
  ghost predicate TriggeredAs(db: Db, db': Db, rider: RiderId, r: RideId, newRef: PspRef, answer: Reply<Payment>) {
    && OnlyMoney(db, db') && db'.receipts == db.receipts && (answer.Failure? ==> db' == db)
    && (answer == Failure(NotFound) <==> r !in db.rides)
    && (answer == Failure(Forbidden) <==> r in db.rides && db.rides[r].rider != rider)
    && forall p | p in db.payments && db.payments[p].ride == r ::
         var pay := db.payments[p];
         var finished := r in db.rides && db.rides[r].rider == rider && db.rides[r].status == Completed;
         && (answer.Success? <==> finished && (pay.status == Pending || (pay.status == Failed && pay.retryCount < 3)))
         && (answer == Failure(RetriesExhausted) <==> finished && pay.status == Failed && pay.retryCount >= 3)
         && (answer.Success? ==>
               && answer.value == pay.(status := Processing, pspRef := Some(newRef))
               && db'.payments == db.payments[p := answer.value] && db'.issued == db.issued[newRef := p])
  }

  class Payments {
    const st: Store

    constructor (st: Store)
      ensures this.st == st
    {
      this.st := st;
    }

    /** Moves the payment to processing under a new reference. */
    method Attempt(p: PaymentId, newRef: PspRef, ghost rider: RiderId, ghost r: RideId)
      requires p in st.pg.payments && CanTrigger(st.pg.payments[p]) && newRef !in st.pg.issued
      modifies st`pg
      ensures Alone(old(st.At(Triggering(CommitAttempt(rider, r, p)))), st.At(FINISHED))
      ensures st.pg == Apply(old(st.pg), TriggerPayment(p, newRef))
      ensures st.pg.payments == old(st.pg).payments[p := old(st.pg).payments[p].(status := Processing, pspRef := Some(newRef))]
      ensures st.pg.issued == old(st.pg).issued[newRef := p]
      ensures OnlyMoney(old(st.pg), st.pg) && st.pg.receipts == old(st.pg).receipts
    {
      ghost var s0 := st.At(Triggering(CommitAttempt(rider, r, p)));
      TriggeringAlone(s0, CommitAttempt(rider, r, p), QUIET.(newId := newRef));
      Here(s0);
      hide Alone, StepAlone;
      ghost var s := Next(s0, s0, QUIET.(newId := newRef));
      var row := st.pg.payments[p].(status := Processing, pspRef := Some(newRef));
      st.pg := Logged(st.pg.(payments := st.pg.payments[p := row], issued := st.pg.issued[newRef := p]), Attempted(p, newRef));
    }

    /** Starts, or starts again, the payment of a completed ride. */
    method Trigger(rider: RiderId, r: RideId, newRef: PspRef) returns (payment: Reply<Payment>)
      requires Inv(st.pg) && newRef !in st.pg.issued
      modifies st`pg
      ensures Alone(old(st.At(Triggering(LoadOwner(rider, r)))), st.At(Done(if payment.Success? then Finished else Rejected)))
      ensures payment.Success? <==> Payable(old(st.pg), rider, r) && CanTrigger(old(st.pg).payments[TriggeredBy(old(st.pg), r)])
      ensures st.pg == if payment.Success? then Apply(old(st.pg), TriggerPayment(TriggeredBy(old(st.pg), r), newRef)) else old(st.pg)
      ensures payment == Failure(RetriesExhausted) <==>
        (Payable(old(st.pg), rider, r) && Exhausted(old(st.pg).payments[TriggeredBy(old(st.pg), r)]))
      ensures TriggeredAs(old(st.pg), st.pg, rider, r, newRef, payment)
    {
      if HasStatus(st.pg, r, Completed) { OnePaymentFor(st.pg, r); }
      ghost var db := st.pg;
      ghost var s0 := st.At(Triggering(LoadOwner(rider, r)));
      OwnerReads(st.pg, st.redis, rider, r);
      hide Inv, Alone, Apply, LatestPayment, TriggeredAs, OnlyMoney;
      if r !in st.pg.rides || st.pg.rides[r].rider != rider || st.pg.rides[r].status != Completed {
        payment := Failure(if r !in st.pg.rides then NotFound
                           else if st.pg.rides[r].rider != rider then Forbidden else InvalidState);
        NothingPayable(db, rider, r, newRef, payment);
        return;
      }
      var p :| p in st.pg.payments && LatestPayment(st.pg, r, p);
      PaymentReads(st.pg, st.redis, rider, r, p);
      var row := st.pg.payments[p];
      if !CanTrigger(row) {
        payment := Failure(if Exhausted(row) then RetriesExhausted else InvalidState);
      } else {
        Attempt(p, newRef, rider, r);
        Joined(s0, old(st.At(Triggering(CommitAttempt(rider, r, p)))), st.At(FINISHED));
        payment := Success(row.(status := Processing, pspRef := Some(newRef)));
      }
      OneTriggered(db, st.pg, p, rider, r, newRef, payment);
    }

    /** Applies a confirmation to the payment waiting for the reference, if one is. */
    method HandleWebhook(ref: PspRef, success: bool) returns (error: Option<Error>)
      requires Inv(st.pg)
      modifies st`pg
      ensures Alone(old(st.At(Confirming(LoadByRef(ref, success)))), st.At(Done(if error.None? then Finished else Rejected)))
      ensures error == if PaymentOf(old(st.pg), ref).None? then Some(NotFound) else None
      ensures st.pg != old(st.pg) <==> Open(old(st.pg), ref)
      ensures ConfirmedAs(old(st.pg), st.pg, ref, success, error.None?)
    {
      hide Inv, Written, Alone, Open, PaymentOf, ConfirmedAs, OnlyMoney, Apply, Bears;
      ghost var db := st.pg;
      ConfirmAlone(st.pg, st.redis, ref, success);
      FoundRow(db, ref);
      var p := PaymentOf(st.pg, ref);
      if p.None? {
        NothingConfirmed(db, ref, success);
        return Some(NotFound);
      }
      var row := st.pg.payments[p.value];
      if row.status != Processing {
        NothingConfirmed(db, ref, success);
        return None;
      }
      if success {
        ApplySuccess(ref, p.value, row.ride);
      } else {
        ApplyFailure(ref, p.value, row.ride);
      }
      OneConfirmed(db, st.pg, p.value, ref, success);
      return None;
    }

    /** The payment succeeds and its receipt is written, in one transaction. */
    method ApplySuccess(ref: PspRef, p: PaymentId, r: RideId)
      requires PaymentOf(st.pg, ref) == Some(p) && st.pg.payments[p].status == Processing && r in st.pg.trips
      modifies st`pg
      ensures st.pg == Apply(old(st.pg), SettleSuccess(ref, r))
      ensures st.pg.payments == old(st.pg).payments[p := old(st.pg).payments[p].(status := Succeeded)]
      ensures r !in old(st.pg).receipts ==>
        st.pg.receipts == old(st.pg).receipts[r := Written(p, old(st.pg).payments[p], old(st.pg).trips[r])]
      ensures OnlyMoney(old(st.pg), st.pg) && st.pg.issued == old(st.pg).issued
    {
      var tx := st.pg;
      var pay := tx.payments[p];
      tx := Logged(tx.(payments := tx.payments[p := pay.(status := Succeeded)]), Settled(p, ref, true));
      var trip := tx.trips[r];
      var duration := None;
      if trip.endedAt.Some? {
        var seconds := WholeSeconds(trip.endedAt.value - trip.startedAt) - trip.pausedSeconds;
        duration := Some(if seconds < 0 then 0 else seconds);
      }
      if r !in tx.receipts {
        tx := tx.(receipts := tx.receipts[r := Receipt(
          pay.amount, trip.fare, pay.payBy, p, trip.distanceM, duration, trip.startedAt, trip.endedAt)]);
      }
      st.pg := tx;
    }

    method ApplyFailure(ref: PspRef, p: PaymentId, r: RideId)
      requires PaymentOf(st.pg, ref) == Some(p) && st.pg.payments[p].status == Processing
      modifies st`pg
      ensures st.pg == Apply(old(st.pg), SettleFailure(ref))
      ensures st.pg.payments == old(st.pg).payments[
        p := old(st.pg).payments[p].(status := Failed, retryCount := old(st.pg).payments[p].retryCount + 1)]
      ensures OnlyMoney(old(st.pg), st.pg) && st.pg.issued == old(st.pg).issued && st.pg.receipts == old(st.pg).receipts
    {
      var pay := st.pg.payments[p];
      st.pg := Logged(st.pg.(payments := st.pg.payments[p := pay.(status := Failed, retryCount := pay.retryCount + 1)]),
                      Settled(p, ref, false));
    }
  }

  /** A completed ride of the rider's, with its payment. */
  ghost predicate Payable(db: Db, rider: RiderId, r: RideId) {
    HasStatus(db, r, Completed) && db.rides[r].rider == rider && Billed(db, r)
  }

  predicate Exhausted(p: Payment) {
    p.status == Failed && p.retryCount >= MAX_RETRIES
  }

  /** The payment of a completed ride; over sound tables there is exactly one. */
  ghost function TriggeredBy(db: Db, r: RideId): (p: PaymentId)
    requires Billed(db, r)
    ensures p in db.payments && db.payments[p].ride == r
  {
    var p :| p in db.payments && db.payments[p].ride == r; p
  }

  /** A reference finds its row, whose ride, while it is open, has a trip and no receipt. */
  lemma FoundRow(db: Db, ref: PspRef)
    requires Inv(db)
    ensures PaymentOf(db, ref).Some? ==>
      var p := PaymentOf(db, ref).value;
      && p in db.payments
      && (db.payments[p].status == Processing ==> db.payments[p].ride !in db.receipts && db.payments[p].ride in db.trips)
  {
    if PaymentOf(db, ref).Some? && db.payments[PaymentOf(db, ref).value].status == Processing {
      NoReceiptYet(db, PaymentOf(db, ref).value);
    }
    hide Inv;
  }

  /** A confirmation run alone: it reads, and settles what waits. */
  lemma ConfirmAlone(db: Db, k: Keys, ref: PspRef, success: bool)
    ensures var s0, p := Solo(db, k, Confirming(LoadByRef(ref, success))), PaymentOf(db, ref);
      if p.None? then Alone(s0, Solo(db, k, REJECTED))
      else if db.payments[p.value].status != Processing then Alone(s0, Solo(db, k, FINISHED))
      else Alone(s0, Solo(Apply(db, if success then SettleSuccess(ref, db.payments[p.value].ride) else SettleFailure(ref)),
                          k, FINISHED))
  {
    hide Alone, StepAlone, Apply, Ledger.Ok;
    var s0, p := Solo(db, k, Confirming(LoadByRef(ref, success))), PaymentOf(db, ref);
    Here(s0);
    ConfirmingAlone(s0, LoadByRef(ref, success), QUIET);
    var s := Next(s0, s0, QUIET);
    if p.Some? && db.payments[p.value].status == Processing {
      ConfirmingAlone(s, CommitSettlement(ref, db.payments[p.value].ride, success), QUIET);
      s := Next(s0, s, QUIET);
    }
  }

  /** What the reads of a trigger lead to, run alone. */
  lemma OwnerReads(db: Db, k: Keys, rider: RiderId, r: RideId)
    ensures var s0 := Solo(db, k, Triggering(LoadOwner(rider, r)));
      Alone(s0, Solo(db, k, if HasStatus(db, r, Completed) && db.rides[r].rider == rider
                            then Triggering(LoadPayment(rider, r)) else REJECTED))
  {
    hide Alone, StepAlone;
    var s0 := Solo(db, k, Triggering(LoadOwner(rider, r)));
    Here(s0);
    TriggeringAlone(s0, LoadOwner(rider, r), QUIET);
    var s := Next(s0, s0, QUIET);
  }

  lemma PaymentReads(db: Db, k: Keys, rider: RiderId, r: RideId, p: PaymentId)
    requires HasStatus(db, r, Completed) && db.rides[r].rider == rider && LatestPayment(db, r, p)
    ensures p in db.payments
    ensures var s0 := Solo(db, k, Triggering(LoadOwner(rider, r)));
      Alone(s0, Solo(db, k, if CanTrigger(db.payments[p]) then Triggering(CommitAttempt(rider, r, p)) else REJECTED))
  {
    OwnerReads(db, k, rider, r);
    hide Alone, StepAlone;
    var s0, s := Solo(db, k, Triggering(LoadOwner(rider, r))), Solo(db, k, Triggering(LoadPayment(rider, r)));
    TriggeringAlone(s, LoadPayment(rider, r), QUIET.(pick := p));
    var t := Next(s0, s, QUIET.(pick := p));
  }

  lemma NothingConfirmed(db: Db, ref: PspRef, success: bool)
    requires Inv(db) && (PaymentOf(db, ref).Some? ==> db.payments[PaymentOf(db, ref).value].status != Processing)
    ensures ConfirmedAs(db, db, ref, success, PaymentOf(db, ref).Some?) && !Open(db, ref)
  {
    hide Inv, Bears, PaymentOf;
    forall p: PaymentId ensures Bears(db, p, ref) <==> PaymentOf(db, ref) == Some(p) {
      ReferenceFindsRow(db, p, ref);
    }
  }

  lemma OneConfirmed(db: Db, db': Db, p: PaymentId, ref: PspRef, success: bool)
    requires Inv(db) && PaymentOf(db, ref) == Some(p) && db.payments[p].status == Processing
    requires OnlyMoney(db, db') && db'.issued == db.issued && db.payments[p].ride in db.trips
    requires var pay := db.payments[p];
      if success then
        && db'.payments == db.payments[p := pay.(status := Succeeded)]
        && db'.receipts == db.receipts[pay.ride := Written(p, pay, db.trips[pay.ride])]
      else
        && db'.payments == db.payments[p := pay.(status := Failed, retryCount := pay.retryCount + 1)]
        && db'.receipts == db.receipts
    ensures ConfirmedAs(db, db', ref, success, true) && Open(db, ref) && db' != db
  {
    hide Inv, Written, Bears, ConfirmedAs;
    assert db'.payments[p] != db.payments[p];
    assert Bears(db, p, ref) by { ReferenceFindsRow(db, p, ref); }
    forall p': PaymentId ensures Bears(db, p', ref) <==> p' == p {
      ReferenceFindsRow(db, p', ref);
    }
    OnlyOneBears(db, db', p, ref, success);
  }

  lemma OnlyOneBears(db: Db, db': Db, p: PaymentId, ref: PspRef, success: bool)
    requires Bears(db, p, ref) && db.payments[p].status == Processing
    requires forall p': PaymentId :: Bears(db, p', ref) <==> p' == p
    requires OnlyMoney(db, db') && db'.issued == db.issued && db.payments[p].ride in db.trips
    requires var pay := db.payments[p];
      if success then
        && db'.payments == db.payments[p := pay.(status := Succeeded)]
        && db'.receipts == db.receipts[pay.ride := Written(p, pay, db.trips[pay.ride])]
      else
        && db'.payments == db.payments[p := pay.(status := Failed, retryCount := pay.retryCount + 1)]
        && db'.receipts == db.receipts
    ensures ConfirmedAs(db, db', ref, success, true)
  {
    hide Written, OnlyMoney;
  }

  lemma NothingPayable(db: Db, rider: RiderId, r: RideId, newRef: PspRef, answer: Reply<Payment>)
    requires !(r in db.rides && db.rides[r].rider == rider && db.rides[r].status == Completed)
    requires answer == Failure(if r !in db.rides then NotFound
                               else if db.rides[r].rider != rider then Forbidden else InvalidState)
    ensures TriggeredAs(db, db, rider, r, newRef, answer)
  {
  }

  lemma OneTriggered(db: Db, db': Db, p: PaymentId, rider: RiderId, r: RideId, newRef: PspRef, answer: Reply<Payment>)
    requires r in db.rides && db.rides[r].rider == rider && db.rides[r].status == Completed
    requires p in db.payments && forall p' | p' in db.payments && db.payments[p'].ride == r :: p' == p
    requires var pay := db.payments[p];
      if CanTrigger(pay) then
        && answer == Success(pay.(status := Processing, pspRef := Some(newRef)))
        && db'.payments == db.payments[p := answer.value] && db'.issued == db.issued[newRef := p]
        && OnlyMoney(db, db') && db'.receipts == db.receipts
      else answer == Failure(if Exhausted(pay) then RetriesExhausted else InvalidState) && db' == db
    ensures TriggeredAs(db, db', rider, r, newRef, answer)
  {
  }

  lemma NoReceiptYet(db: Db, p: PaymentId)
    requires Inv(db) && p in db.payments && db.payments[p].status == Processing
    ensures db.payments[p].ride !in db.receipts && db.payments[p].ride in db.trips
  {
  }

  lemma OnePaymentFor(db: Db, r: RideId)
    requires Inv(db) && HasStatus(db, r, Completed)
    ensures Billed(db, r) && LatestPayment(db, r, TriggeredBy(db, r))
    ensures forall p | LatestPayment(db, r, p) :: p == TriggeredBy(db, r)
    ensures forall p | p in db.payments && db.payments[p].ride == r :: p == TriggeredBy(db, r)
  {
  }

}
