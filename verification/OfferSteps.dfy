/** What the steps of every handler but the offer loop leave alone: tried sets, claims and
    assignments. No request continues as another one, and only the loop's own steps follow
    the start of a search. */
module OfferSteps {
  import opened Prelude
  import opened Ledger
  import opened Redis
  import opened Protocol

  // ---- the shape of requests ----

  /** What can be left to do after a continuation: more of a sweep, or nothing but keys. */
  predicate IsTail(p: Proc) {
    match p
    case Done(_) => true
    case Sweeping(_) => true
    case Uncaching(_, after) => after.Done?
    case _ => false
  }

  predicate OffersNothing(p: Proc) {
    match p
    case Offering(_, _) => false
    case Releasing(_, after) => IsTail(after)
    case Uncaching(_, after) => IsTail(after)
    case _ => true
  }

  /** A request never continues as another request. */
  predicate Shaped(p: Proc) {
    if p.Offering? then IsTail(p.after) else OffersNothing(p)
  }

  /** At most the start of an offer loop. */
  predicate Starts(p: Proc) {
    if p.Offering? then p.offer.FindNearby? && IsTail(p.after) else OffersNothing(p)
  }

  lemma EntryStarts(p: Proc)
    requires Entry(p)
    ensures Starts(p)
  {
  }

  lemma OfferingStep(db: Db, k: Keys, pc: OfferPc, after: Proc, i: Input)
    ensures Step(db, k, Offering(pc, after), i) == OfferStep(k, pc, after, i)
  {
  }

  // ---- handler by handler ----

  /** A step that leaves every tried set alone and starts no more than a search. */
  predicate LeavesTried(k: Keys, a: Act) {
    a.keys.tried == k.tried && Starts(a.next)
  }

  /** A step that makes no claim, assigns nobody, and is not about to. */
  predicate LeavesClaims(k: Keys, a: Act) {
    && (a.keys.offerDriver == k.offerDriver || Submap(a.keys.offerDriver, k.offerDriver))
    && (a.tx.Some? ==> !a.tx.value.AssignRide?) && !a.next.Accepting?
  }

  predicate LeavesOffers(k: Keys, a: Act) {
    LeavesTried(k, a) && LeavesClaims(k, a)
  }

  lemma CreateLeavesOffers(db: Db, k: Keys, pc: CreatePc, i: Input)
    ensures LeavesOffers(k, CreateStep(db, k, pc, i))
  {
    hide Ok, QuoteUsable, SearchOf;
  }

  lemma DeclineLeavesOffers(db: Db, k: Keys, pc: DeclinePc)
    ensures LeavesOffers(k, DeclineStep(db, k, pc))
  {
    hide SearchOf;
  }

  lemma AcceptLeavesTried(db: Db, k: Keys, pc: AcceptPc, i: Input)
    ensures LeavesTried(k, AcceptStep(db, k, pc, i))
  {
    hide Ok, AlreadyAssigned;
  }

  lemma SweepLeavesOffers(db: Db, k: Keys, pc: SweepPc, i: Input)
    ensures LeavesOffers(k, SweepStep(db, k, pc, i))
  {
    hide Ok, RowsOf;
  }

  lemma ToggleLeavesOffers(db: Db, k: Keys, pc: AvailabilityPc)
    ensures LeavesOffers(k, ToggleStep(db, k, pc))
  {
    hide Ok;
  }

  lemma ReleaseLeavesOffers(db: Db, k: Keys, pc: ReleasePc, after: Proc)
    requires IsTail(after)
    ensures LeavesOffers(k, ReleaseStep(db, k, pc, after))
  {
  }

  lemma PingLeavesOffers(db: Db, k: Keys, pc: PingPc, i: Input)
    ensures LeavesOffers(k, PingStep(k, pc, i))
  {
    hide Ping;
    match pc
    case ReadMirrors(_, _) =>
    case WritePosition(d, pos, mirror, ride, metres) => PingKeysKept(k, d, pos, mirror, ride, metres);
  }

  lemma CancelLeavesOffers(db: Db, k: Keys, pc: CancelPc, i: Input)
    ensures LeavesOffers(k, CancelStep(db, k, pc, i))
  {
    hide Ok, Entitled;
  }

  lemma EndLeavesOffers(db: Db, k: Keys, pc: EndPc, i: Input)
    ensures LeavesOffers(k, EndStep(db, k, pc, i))
  {
    hide Ok, FareOf, Elapsed, MeteredDistance;
    assert forall r :: IsTail(Uncaching(r, FINISHED));
  }

  lemma StartLeavesOffers(db: Db, k: Keys, pc: StartPc, i: Input)
    ensures LeavesOffers(k, StartStep(db, k, pc, i))
  {
    hide Ok, MayStart;
  }

  lemma ProgressLeavesOffers(db: Db, k: Keys, pc: ProgressPc, i: Input)
    ensures LeavesOffers(k, ProgressStep(db, k, pc, i))
  {
    hide Ok;
  }

  lemma GetLeavesOffers(db: Db, k: Keys, pc: GetPc)
    ensures LeavesOffers(k, GetStep(db, k, pc))
  {
    hide MaySee, ViewOf;
  }

  lemma PauseLeavesOffers(db: Db, k: Keys, pc: PausePc, i: Input)
    ensures LeavesOffers(k, PauseStep(db, k, pc, i))
  {
    hide Ok;
  }

  lemma ResumeLeavesOffers(db: Db, k: Keys, pc: ResumePc, i: Input)
    ensures LeavesOffers(k, ResumeStep(db, k, pc, i))
  {
    hide Ok, Elapsed;
  }

  lemma TriggerLeavesOffers(db: Db, k: Keys, pc: TriggerPc, i: Input)
    ensures LeavesOffers(k, TriggerStep(db, k, pc, i))
  {
    hide Ok, LatestPayment;
  }

  lemma ConfirmLeavesOffers(db: Db, k: Keys, pc: ConfirmPc)
    ensures LeavesOffers(k, ConfirmStep(db, k, pc))
  {
    hide Ok;
  }

  lemma LastLeavesOffers(db: Db, k: Keys, p: Proc, i: Input)
    requires p.Done? || p.Regenerating? || (p.Uncaching? && IsTail(p.after))
    ensures LeavesOffers(k, Step(db, k, p, i))
  {
    hide Ok;
  }

  lemma OthersStep(db: Db, k: Keys, p: Proc, i: Input)
    requires OffersNothing(p)
    ensures LeavesTried(k, Step(db, k, p, i))
    ensures !p.Accepting? ==> LeavesClaims(k, Step(db, k, p, i))
  {
    hide LeavesTried, LeavesClaims, CreateStep, AcceptStep, DeclineStep, SweepStep, CancelStep, GetStep, ToggleStep, ReleaseStep,
         PingStep, StartStep, EndStep, ProgressStep, PauseStep, ResumeStep, TriggerStep, ConfirmStep;
    match p
    case Creating(pc) => CreateLeavesOffers(db, k, pc, i);
    case Declining(pc) => DeclineLeavesOffers(db, k, pc);
    case Accepting(pc) => AcceptLeavesTried(db, k, pc, i);
    case Sweeping(pc) => SweepLeavesOffers(db, k, pc, i);
    case Toggling(pc) => ToggleLeavesOffers(db, k, pc);
    case Releasing(pc, after) => ReleaseLeavesOffers(db, k, pc, after);
    case Pinging(pc) => PingLeavesOffers(db, k, pc, i);
    case Cancelling(pc) => CancelLeavesOffers(db, k, pc, i);
    case Starting(pc) => StartLeavesOffers(db, k, pc, i);
    case Ending(pc) => EndLeavesOffers(db, k, pc, i);
    case Progressing(pc) => ProgressLeavesOffers(db, k, pc, i);
    case Getting(pc) => GetLeavesOffers(db, k, pc);
    case Pausing(pc) => PauseLeavesOffers(db, k, pc, i);
    case Resuming(pc) => ResumeLeavesOffers(db, k, pc, i);
    case Triggering(pc) => TriggerLeavesOffers(db, k, pc, i);
    case Confirming(pc) => ConfirmLeavesOffers(db, k, pc);
    case _ => LastLeavesOffers(db, k, p, i);
  }

  lemma DriversStay(db: Db, tx: Option<Tx>)
    ensures After(db, tx).drivers.Keys == db.drivers.Keys
  {
    if tx.Some? && Ok(db, tx.value) { EffectKeepsDrivers(db, tx.value); }
  }

  lemma EffectKeepsDrivers(db: Db, tx: Tx)
    requires Ok(db, tx)
    ensures Effect(db, tx).drivers.Keys == db.drivers.Keys
  {
    if tx.CancelRide? || tx.EndTrip? {
      FreeingKeepsDrivers(db, tx);
    } else {
      hide CancelEffect, EndEffect, ReceiptOf;
    }
  }

  lemma FreeingKeepsDrivers(db: Db, tx: Tx)
    requires (tx.CancelRide? || tx.EndTrip?) && Ok(db, tx)
    ensures Effect(db, tx).drivers.Keys == db.drivers.Keys
  {
  }

}
