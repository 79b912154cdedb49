/** On whose behalf a step acts: every step of a request keeps to what the request asked
    when it arrived, and to what it read in its first step. */
module Requests {
  import opened Prelude
  import opened Pricing
  import opened RideStates
  import opened TripClock
  import opened Ledger
  import opened Redis
  import opened Protocol
  import opened ProtocolSafety

  /** How a request arrived, and the tables and the clock at its first step, once taken. */
  datatype Request = Request(entry: Proc, read: Option<Db>, now: Instant)

  function Reading(req: Request, db: Db, now: Instant): Request {
    if req.read.None? then req.(read := Some(db), now := now) else req
  }

  // ---- what the first step read ----

  ghost predicate ReadDriver(req: Request, r: RideId, d: DriverId) {
    req.read.Some? && r in req.read.value.rides && req.read.value.rides[r].driver == Some(d)
  }

  ghost predicate ReadRider(req: Request, r: RideId, rider: RiderId) {
    req.read.Some? && r in req.read.value.rides && req.read.value.rides[r].rider == rider
  }

  ghost predicate ReadStatus(req: Request, r: RideId, s: RideStatus) {
    req.read.Some? && r in req.read.value.rides && req.read.value.rides[r].status == s
  }

  ghost predicate ReadCode(req: Request, r: RideId, otp: string) {
    req.read.Some? && r in req.read.value.rides && req.read.value.rides[r].otp == Some(otp)
  }

  /** The rider's own quote for the tier, not expired. */
  ghost predicate ReadQuote(req: Request, b: Booking) {
    && req.read.Some? && b.q in req.read.value.quotes && req.read.value.quotes[b.q].rider == b.rider
    && req.now <= req.read.value.quotes[b.q].expiresAt && b.tier in req.read.value.quotes[b.q].prices
  }

  // ---- what the request asked for ----

  ghost predicate BookedBy(req: Request, b: Booking) {
    req.entry == Creating(LoadQuote(b)) && ReadQuote(req, b)
  }

  ghost predicate StartedBy(req: Request, d: DriverId, r: RideId, otp: string) {
    && req.entry == Starting(LoadStart(d, r, otp))
    && ReadDriver(req, r, d) && ReadStatus(req, r, Arrived) && ReadCode(req, r, otp)
  }

  ghost predicate DrivenOnBy(req: Request, r: RideId, d: DriverId, leg: Leg) {
    req.entry == Progressing(LoadAssigned(r, d, leg)) && ReadDriver(req, r, d)
  }

  ghost predicate PausedBy(req: Request, d: DriverId, r: RideId) {
    req.entry == Pausing(LoadPause(d, r)) && ReadDriver(req, r, d)
  }

  ghost predicate ResumedBy(req: Request, d: DriverId, r: RideId) {
    req.entry == Resuming(LoadResume(d, r)) && ReadDriver(req, r, d)
  }

  ghost predicate EndedBy(req: Request, d: DriverId, r: RideId) {
    req.entry == Ending(LoadEnding(d, r)) && ReadDriver(req, r, d) && ReadStatus(req, r, InProgress)
  }

  ghost predicate CancelledBy(req: Request, r: RideId, actor: Actor, reason: Option<string>) {
    && req.entry == Cancelling(LoadOwners(r, actor, reason))
    && match actor
       case ByRider(rider) => ReadRider(req, r, rider)
       case ByDriver(d) => ReadDriver(req, r, d)
       case ByNobody => false
  }

  ghost predicate TriggeredBy(req: Request, rider: RiderId, r: RideId) {
    req.entry == Triggering(LoadOwner(rider, r)) && ReadRider(req, r, rider) && ReadStatus(req, r, Completed)
  }

  /** The rides booked so far, each with the request that booked it. */
  type Bookings = map<RideId, Request>

  /** The transaction is what the request asked for. */
  ghost predicate Asks(db: Db, booked: Bookings, req: Request, tx: Tx) {
    match tx
    case InsertQuote(_, _) => false
    case InsertRide(_, rider, q, tier, payBy, _) => BookedBy(req, Booking(rider, q, tier, payBy))
    case MoveRide(r, from, to, _) =>
      || (from == Requested && to == Matching && r in booked && booked[r] == req)
      || (from == Matching && to == Expired && req.entry == Sweeping(ClaimBatch))
      || (from == DriverAssigned && to == DriverArriving && exists d :: DrivenOnBy(req, r, d, ToArriving))
      || (from == DriverArriving && to == Arrived && exists d :: DrivenOnBy(req, r, d, ToArrived))
    case CancelRide(r, to, reason, _) =>
      || (to == CancelledByRider && exists rider :: CancelledBy(req, r, ByRider(rider), reason))
      || (to == CancelledByDriver && exists d :: CancelledBy(req, r, ByDriver(d), reason))
    case AssignRide(r, d, _, _) => req.entry == Accepting(TakeHeld(d, r))
    case RegenerateOtp(r, rider, _, _) => req.entry == Regenerating(rider, r)
    case SetAvailability(d, available) => req.entry == Toggling(CommitAvailability(d, available))
    case StartTrip(r, _) => exists d, otp :: StartedBy(req, d, r, otp)
    case PauseTrip(r) => exists d :: PausedBy(req, d, r)
    case ResumeTrip(r, _) => exists d :: ResumedBy(req, d, r)
    case EndTrip(r, d, _, _, _, _, _, _) => EndedBy(req, d, r)
    case TriggerPayment(p, _) => exists rider, r :: TriggeredBy(req, rider, r) && PaidFor(db, p, r)
    case SettleSuccess(ref, _) => req.entry == Confirming(LoadByRef(ref, true))
    case SettleFailure(ref) => req.entry == Confirming(LoadByRef(ref, false))
  }

  // ---- what is left of a request after its first step ----

  ghost predicate Shows(req: Request, outcome: Outcome) {
    match outcome
    case Accepted(d, r) => req.entry == Accepting(TakeHeld(d, r))
    case Shown(v) =>
      && req.entry.Getting? && req.entry.get.ReadCached?
      && (match req.entry.get.actor
          case ByRider(rider) => v.rider == rider
          case ByDriver(d) => v.driver == Some(d)
          case ByNobody => false)
    case _ => true
  }

  ghost predicate CreateServes(booked: Bookings, req: Request, pc: CreatePc) {
    match pc
    case LoadQuote(_) => false
    case InsertRow(b) => BookedBy(req, b)
    case ToMatching(r) => r in booked && booked[r] == req
    case _ => true
  }

  ghost predicate AcceptServes(req: Request, pc: AcceptPc) {
    match pc
    case TakeHeld(_, _) => false
    case Replay(d, r) => req.entry == Accepting(TakeHeld(d, r))
    case Assign(d, r) => req.entry == Accepting(TakeHeld(d, r))
    case LoadCard(d, r) => req.entry == Accepting(TakeHeld(d, r))
    case MarkDriver(d, r, _, _) => req.entry == Accepting(TakeHeld(d, r))
    case UncacheTaken(d, r) => req.entry == Accepting(TakeHeld(d, r))
    case DropTaken(d, r) => req.entry == Accepting(TakeHeld(d, r))
    case LoadTaken(d, r) => req.entry == Accepting(TakeHeld(d, r))
  }

  ghost predicate EndServes(req: Request, pc: EndPc) {
    match pc
    case LoadEnding(_, _) => false
    case LoadTrip(b) => EndedBy(req, b.d, b.r)
    case FoldPause(b) => EndedBy(req, b.d, b.r)
    case LoadPrice(b) => EndedBy(req, b.d, b.r)
    case ReadDist(b) => EndedBy(req, b.d, b.r)
    case ClearEndDist(b) => EndedBy(req, b.d, b.r)
    case CommitEnd(b) => EndedBy(req, b.d, b.r)
  }

  ghost predicate TripServes(req: Request, p: Proc) {
    match p
    case Starting(LoadStart(_, _, _)) => false
    case Starting(CommitStart(d, r)) => exists otp :: StartedBy(req, d, r, otp)
    case Pausing(LoadPause(_, _)) => false
    case Pausing(CommitPause(d, r)) => PausedBy(req, d, r)
    case Resuming(LoadResume(_, _)) => false
    case Resuming(TakePause(d, r)) => ResumedBy(req, d, r)
    case Resuming(CommitResume(d, r, _)) => ResumedBy(req, d, r)
    case _ => true
  }

  ghost predicate RideServes(req: Request, p: Proc) {
    match p
    case Cancelling(LoadOwners(_, _, _)) => false
    case Cancelling(CommitCancel(r, actor, reason)) => CancelledBy(req, r, actor, reason)
    case Progressing(LoadAssigned(_, _, _)) => false
    case Progressing(CommitLeg(r, d, leg)) => DrivenOnBy(req, r, d, leg)
    case Getting(ReadCached(_, _)) => false
    case Getting(LoadFresh(r, actor)) => req.entry == Getting(ReadCached(r, actor))
    case Getting(FillCache(_, actor)) => exists r :: req.entry == Getting(ReadCached(r, actor))
    case Regenerating(_, _) => false
    case _ => true
  }

  ghost predicate MoneyServes(req: Request, p: Proc) {
    match p
    case Triggering(LoadOwner(_, _)) => false
    case Triggering(LoadPayment(rider, r)) => TriggeredBy(req, rider, r)
    case Triggering(CommitAttempt(rider, r, _)) => TriggeredBy(req, rider, r)
    case Confirming(LoadByRef(_, _)) => false
    case Confirming(CommitSettlement(ref, _, success)) => req.entry == Confirming(LoadByRef(ref, success))
    case _ => true
  }

  /** What a request may have left to do, given how it arrived and what it read first. */
  ghost predicate Serves(booked: Bookings, req: Request, p: Proc) {
    req.read.Some? &&
    match p
    case Done(outcome) => Shows(req, outcome)
    case Offering(_, after) => Serves(booked, req, after)
    case Releasing(_, after) => Serves(booked, req, after)
    case Uncaching(_, after) => Serves(booked, req, after)
    case Creating(pc) => CreateServes(booked, req, pc)
    case Accepting(pc) => AcceptServes(req, pc)
    case Declining(pc) => !pc.TakeDeclined?
    case Sweeping(pc) => !pc.ClaimBatch? && req.entry == Sweeping(ClaimBatch)
    case Toggling(pc) => !pc.CommitAvailability?
    case Pinging(pc) => !pc.ReadMirrors?
    case Ending(pc) => EndServes(req, pc)
    case Triggering(_) => MoneyServes(req, p)
    case Confirming(_) => MoneyServes(req, p)
    case Starting(_) => TripServes(req, p)
    case Pausing(_) => TripServes(req, p)
    case Resuming(_) => TripServes(req, p)
    case _ => RideServes(req, p)
  }

  /** The request has yet to take its first step, or serves what it asked. */
  ghost predicate OnCourse(booked: Bookings, req: Request, p: Proc) {
    Entry(req.entry) && if req.read.None? then p == req.entry else Serves(booked, req, p)
  }

  /** The bookings once a request has committed: rides new on file are its own. */
  function Signed(booked: Bookings, db: Db, req: Request): Bookings {
    map r | r in db.rides :: if r in booked then booked[r] else req
  }

  /** A step that attempts only what was asked, and leaves no more to do than that. */
  ghost predicate Faithful(db: Db, booked: Bookings, req: Request, a: Act) {
    && (a.tx.Some? ==> Asks(db, booked, req, a.tx.value))
    && Serves(Signed(booked, After(db, a.tx), req), req, a.next)
  }

  /** Nothing is left to do but keys. */
  lemma TailServes(booked: Bookings, req: Request, r: RideId, d: DriverId)
    requires req.read.Some?
    ensures Serves(booked, req, FINISHED) && Serves(booked, req, REJECTED)
    ensures Serves(booked, req, Uncaching(r, FINISHED))
    ensures Serves(booked, req, Releasing(LoadDriver(d), FINISHED))
    ensures Serves(booked, req, Releasing(LoadDriver(d), Uncaching(r, FINISHED)))
  {
    hide CreateServes, AcceptServes, EndServes, TripServes, RideServes, MoneyServes;
    assert Serves(booked, req, FINISHED);
    assert Serves(booked, req, Uncaching(r, FINISHED));
  }

  // ---- handler by handler ----

  lemma CreateIsFaithful(db: Db, k: Keys, booked: Bookings, req: Request, pc: CreatePc, i: Input)
    requires OnCourse(booked, req, Creating(pc)) && booked.Keys == db.rides.Keys
    ensures Faithful(db, booked, Reading(req, db, i.now), CreateStep(db, k, pc, i))
  {
    hide OfferIfMatching;
    match pc
    case InsertRow(b) =>
    case ToMatching(r) =>
    case LoadForMatch(r) =>
      OffersOn(db, k, r, FINISHED);
      TailServes(Signed(booked, db, req), req, 0, 0);
    case _ =>
  }

  lemma OffersOn(db: Db, k: Keys, r: RideId, after: Proc)
    ensures var a := OfferIfMatching(db, k, r, after);
      a.tx == None && (a.next == after || (a.next.Offering? && a.next.after == after))
  {
  }

  lemma AcceptIsFaithful(db: Db, k: Keys, booked: Bookings, req: Request, pc: AcceptPc, i: Input)
    requires OnCourse(booked, req, Accepting(pc))
    ensures Faithful(db, booked, Reading(req, db, i.now), AcceptStep(db, k, pc, i))
  {
    hide Ok, Apply, AlreadyAssigned, Signed;
  }

  lemma DeclineIsFaithful(db: Db, k: Keys, booked: Bookings, req: Request, pc: DeclinePc, i: Input)
    requires OnCourse(booked, req, Declining(pc))
    ensures Faithful(db, booked, Reading(req, db, i.now), DeclineStep(db, k, pc))
  {
    hide OfferIfMatching, Signed;
    TailServes(Signed(booked, db, Reading(req, db, i.now)), Reading(req, db, i.now), 0, 0);
    if pc.LoadDeclined? { OffersOn(db, k, pc.r, FINISHED); }
  }

  lemma OfferIsFaithful(db: Db, k: Keys, booked: Bookings, req: Request, pc: OfferPc, after: Proc, i: Input)
    requires OnCourse(booked, req, Offering(pc, after)) && booked.Keys == db.rides.Keys
    ensures Faithful(db, booked, Reading(req, db, i.now), OfferStep(k, pc, after, i))
  {
    OfferStepOffersOnly(k, pc, after, i);
    SignedAlready(db, booked, req);
    hide OfferStep, Signed, Asks;
  }

  lemma SignedAlready(db: Db, booked: Bookings, req: Request)
    requires booked.Keys == db.rides.Keys
    ensures Signed(booked, db, req) == booked
  {
  }

  lemma SweepIsFaithful(db: Db, k: Keys, booked: Bookings, req: Request, pc: SweepPc, i: Input)
    requires OnCourse(booked, req, Sweeping(pc))
    ensures Faithful(db, booked, Reading(req, db, i.now), SweepStep(db, k, pc, i))
  {
    hide Ok, Apply, RowsOf, Signed;
    if pc.CheckOffer? {
      assert Serves(Signed(booked, db, req), req, Sweeping(NextRow(pc.rows, pc.now)));
    }
  }

  lemma RideIsFaithful(db: Db, k: Keys, booked: Bookings, req: Request, p: Proc, i: Input)
    requires OnCourse(booked, req, p) && (p.Cancelling? || p.Progressing?)
    ensures Faithful(db, booked, Reading(req, db, i.now),
                     if p.Cancelling? then CancelStep(db, k, p.cancel, i) else ProgressStep(db, k, p.progress, i))
  {
    hide Ok, Apply, Signed;
    var now := Reading(req, db, i.now);
    if p.Cancelling? {
      var signed := Signed(booked, After(db, CancelStep(db, k, p.cancel, i).tx), now);
      TailServes(signed, now, 0, 0);
      if p.cancel.UncacheCancelled? && p.cancel.driver.Some? { TailServes(signed, now, 0, p.cancel.driver.value); }
    }
  }

  lemma GetIsFaithful(db: Db, k: Keys, booked: Bookings, req: Request, pc: GetPc, i: Input)
    requires OnCourse(booked, req, Getting(pc))
    ensures Faithful(db, booked, Reading(req, db, i.now), GetStep(db, k, pc))
  {
    hide ViewOf, Signed;
  }

  lemma ToggleIsFaithful(db: Db, k: Keys, booked: Bookings, req: Request, pc: AvailabilityPc, i: Input)
    requires OnCourse(booked, req, Toggling(pc))
    ensures Faithful(db, booked, Reading(req, db, i.now), ToggleStep(db, k, pc))
  {
    hide Ok, Apply, Signed;
  }

  lemma ReleaseIsFaithful(db: Db, k: Keys, booked: Bookings, req: Request, pc: ReleasePc, after: Proc, i: Input)
    requires OnCourse(booked, req, Releasing(pc, after)) && booked.Keys == db.rides.Keys
    ensures Faithful(db, booked, Reading(req, db, i.now), ReleaseStep(db, k, pc, after))
  {
    SignedAlready(db, booked, req);
    hide Signed, Asks;
  }

  lemma PingIsFaithful(db: Db, k: Keys, booked: Bookings, req: Request, pc: PingPc, i: Input)
    requires OnCourse(booked, req, Pinging(pc))
    ensures Faithful(db, booked, Reading(req, db, i.now), PingStep(k, pc, i))
  {
    hide Ping, Signed;
  }

  lemma StartIsFaithful(db: Db, k: Keys, booked: Bookings, req: Request, pc: StartPc, i: Input)
    requires OnCourse(booked, req, Starting(pc))
    ensures Faithful(db, booked, Reading(req, db, i.now), StartStep(db, k, pc, i))
  {
    hide Ok, Apply, Signed;
    if pc.LoadStart? && MayStart(db, pc.d, pc.r, pc.otp) {
      assert StartedBy(Reading(req, db, i.now), pc.d, pc.r, pc.otp);
    }
  }

  lemma PauseIsFaithful(db: Db, k: Keys, booked: Bookings, req: Request, p: Proc, i: Input)
    requires OnCourse(booked, req, p) && (p.Pausing? || p.Resuming?)
    ensures Faithful(db, booked, Reading(req, db, i.now),
                     if p.Pausing? then PauseStep(db, k, p.pause, i) else ResumeStep(db, k, p.resume, i))
  {
    hide Ok, Apply, Signed, Elapsed;
  }

  lemma EndIsFaithful(db: Db, k: Keys, booked: Bookings, req: Request, pc: EndPc, i: Input)
    requires OnCourse(booked, req, Ending(pc))
    ensures Faithful(db, booked, Reading(req, db, i.now), EndStep(db, k, pc, i))
  {
    hide Ok, Apply, Signed, Elapsed, FareOf, MeteredDistance;
    if pc.CommitEnd? { TailServes(Signed(booked, After(db, EndStep(db, k, pc, i).tx), req), req, pc.b.r, pc.b.d); }
  }

  lemma MoneyIsFaithful(db: Db, k: Keys, booked: Bookings, req: Request, p: Proc, i: Input)
    requires OnCourse(booked, req, p) && Knows(db, p) && (p.Triggering? || p.Confirming?)
    ensures Faithful(db, booked, Reading(req, db, i.now),
                     if p.Triggering? then TriggerStep(db, k, p.trigger, i) else ConfirmStep(db, k, p.confirm))
  {
    hide Ok, Apply, Signed, LatestPayment, CanTrigger;
  }

  lemma LastIsFaithful(db: Db, k: Keys, booked: Bookings, req: Request, p: Proc, i: Input)
    requires OnCourse(booked, req, p) && (p.Done? || p.Uncaching? || p.Regenerating?) && booked.Keys == db.rides.Keys
    ensures Faithful(db, booked, Reading(req, db, i.now), Step(db, k, p, i))
  {
    SignedAlready(db, booked, req);
    hide Ok, Apply, Signed;
  }

  /** Every step of every request attempts what the request asked for, on what it read. */
  lemma StepIsFaithful(db: Db, k: Keys, booked: Bookings, req: Request, p: Proc, i: Input)
    requires OnCourse(booked, req, p) && Knows(db, p) && booked.Keys == db.rides.Keys
    ensures Faithful(db, booked, Reading(req, db, i.now), Step(db, k, p, i))
  {
    hide Faithful, OnCourse, Knows, CreateStep, OfferStep, AcceptStep, DeclineStep, SweepStep, CancelStep, GetStep,
         ToggleStep, ReleaseStep, PingStep, StartStep, EndStep, ProgressStep, PauseStep, ResumeStep, TriggerStep, ConfirmStep, Ok;
    match p
    case Creating(pc) => CreateIsFaithful(db, k, booked, req, pc, i);
    case Offering(pc, after) => OfferIsFaithful(db, k, booked, req, pc, after, i);
    case Accepting(pc) => AcceptIsFaithful(db, k, booked, req, pc, i);
    case Declining(pc) => DeclineIsFaithful(db, k, booked, req, pc, i);
    case Sweeping(pc) => SweepIsFaithful(db, k, booked, req, pc, i);
    case Cancelling(_) => RideIsFaithful(db, k, booked, req, p, i);
    case Progressing(_) => RideIsFaithful(db, k, booked, req, p, i);
    case Getting(pc) => GetIsFaithful(db, k, booked, req, pc, i);
    case Toggling(pc) => ToggleIsFaithful(db, k, booked, req, pc, i);
    case Releasing(pc, after) => ReleaseIsFaithful(db, k, booked, req, pc, after, i);
    case Pinging(pc) => PingIsFaithful(db, k, booked, req, pc, i);
    case Starting(pc) => StartIsFaithful(db, k, booked, req, pc, i);
    case Pausing(_) => PauseIsFaithful(db, k, booked, req, p, i);
    case Resuming(_) => PauseIsFaithful(db, k, booked, req, p, i);
    case Ending(pc) => EndIsFaithful(db, k, booked, req, pc, i);
    case Triggering(_) => MoneyIsFaithful(db, k, booked, req, p, i);
    case Confirming(_) => MoneyIsFaithful(db, k, booked, req, p, i);
    case _ => LastIsFaithful(db, k, booked, req, p, i);
  }

}
