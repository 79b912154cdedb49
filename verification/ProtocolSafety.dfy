/** Safety of the tables under every interleaving, whatever Redis answers: what each
    request knows at each step stays true until it acts on it. */
module ProtocolSafety {
  import opened Prelude
  import opened Pricing
  import opened RideStates
  import opened TripClock
  import opened Ledger
  import opened LedgerInvariants
  import opened LedgerHistory
  import opened LedgerGrowth
  import LedgerTheorems
  import opened Redis
  import opened Protocol

  // ---- what a request knows at each step ----

  predicate AcceptKnows(db: Db, pc: AcceptPc) {
    match pc
    case TakeHeld(_, _) => true
    case Replay(_, _) => true
    case Assign(_, _) => true
    case LoadCard(d, r) => DrivenBy(db, r, d)
    case MarkDriver(d, r, _, _) => DrivenBy(db, r, d)
    case UncacheTaken(d, r) => DrivenBy(db, r, d)
    case DropTaken(d, r) => DrivenBy(db, r, d)
    case LoadTaken(d, r) => DrivenBy(db, r, d)
  }

  predicate BilledRide(db: Db, b: Bill) {
    DrivenBy(db, b.r, b.d) && db.rides[b.r].quote == b.q && db.rides[b.r].tier == b.tier
  }

  predicate BilledTrip(db: Db, b: Bill) {
    BilledRide(db, b) && b.r in db.trips && db.trips[b.r].startedAt == b.startedAt && b.pausedSeconds >= 0
  }

  predicate BilledPrice(db: Db, b: Bill) {
    BilledTrip(db, b) && b.q in db.quotes && db.quotes[b.q].surgeX100 == b.surgeX100
  }

  predicate EndKnows(db: Db, pc: EndPc) {
    match pc
    case LoadEnding(_, _) => true
    case LoadTrip(b) => BilledRide(db, b)
    case FoldPause(b) => BilledTrip(db, b)
    case LoadPrice(b) => BilledTrip(db, b)
    case ReadDist(b) => BilledPrice(db, b)
    case ClearEndDist(b) => BilledPrice(db, b)
    case CommitEnd(b) => BilledPrice(db, b)
  }

  predicate OwnedBy(db: Db, r: RideId, rider: RiderId) {
    r in db.rides && db.rides[r].rider == rider
  }

  predicate PaidFor(db: Db, p: PaymentId, r: RideId) {
    p in db.payments && db.payments[p].ride == r
  }

  predicate TriggerKnows(db: Db, pc: TriggerPc) {
    match pc
    case LoadOwner(_, _) => true
    case LoadPayment(rider, r) => OwnedBy(db, r, rider)
    case CommitAttempt(rider, r, p) => OwnedBy(db, r, rider) && PaidFor(db, p, r)
  }

  predicate ConfirmKnows(db: Db, pc: ConfirmPc) {
    pc.CommitSettlement? ==> pc.ref in db.issued && PaidFor(db, db.issued[pc.ref], pc.r)
  }

  predicate Knows(db: Db, p: Proc) {
    match p
    case Done(outcome) => outcome.Accepted? ==> DrivenBy(db, outcome.r, outcome.d)
    case Offering(_, after) => Knows(db, after)
    case Releasing(_, after) => Knows(db, after)
    case Uncaching(_, after) => Knows(db, after)
    case Accepting(pc) => AcceptKnows(db, pc)
    case Cancelling(pc) => pc.CommitCancel? ==> Entitled(db, pc.r, pc.actor)
    case Progressing(pc) => pc.CommitLeg? ==> DrivenBy(db, pc.r, pc.d)
    case Starting(pc) => pc.CommitStart? ==> DrivenBy(db, pc.r, pc.d)
    case Pausing(pc) => pc.CommitPause? ==> DrivenBy(db, pc.r, pc.d)
    case Resuming(pc) => pc.TakePause? || pc.CommitResume? ==> DrivenBy(db, pc.r, pc.d)
    case Ending(pc) => EndKnows(db, pc)
    case Triggering(pc) => TriggerKnows(db, pc)
    case Confirming(pc) => ConfirmKnows(db, pc)
    case _ => true
  }

  ghost predicate JustifiedStep(db: Db, tx: Option<Tx>) {
    tx.Some? ==> Justified(db, tx.value)
  }

  /** Knowledge survives whatever other requests commit. */
  lemma {:induction false} KnowledgeStays(db: Db, db': Db, p: Proc)
    requires Extends(db, db') && Knows(db, p)
    ensures Knows(db', p)
  {
    hide SettledGrows;
    match p
    case Offering(_, after) => KnowledgeStays(db, db', after);
    case Releasing(_, after) => KnowledgeStays(db, db', after);
    case Uncaching(_, after) => KnowledgeStays(db, db', after);
    case _ =>
  }

  // ---- every step acts on knowledge it has, and gains what the next one needs ----

  lemma AcceptActs(db: Db, k: Keys, pc: AcceptPc, i: Input)
    requires AcceptKnows(db, pc)
    ensures var a := AcceptStep(db, k, pc, i); JustifiedStep(db, a.tx) && Knows(After(db, a.tx), a.next)
  {
  }

  lemma PausedTimeStored(db: Db, r: RideId)
    requires TripsSound(db) && r in db.trips
    ensures db.trips[r].pausedSeconds >= 0
  {
  }

  lemma EndActs(db: Db, k: Keys, pc: EndPc, i: Input)
    requires TripsSound(db) && EndKnows(db, pc)
    ensures var a := EndStep(db, k, pc, i); JustifiedStep(db, a.tx) && Knows(db, a.next)
  {
    hide TripsSound, FinalFare, ChargedSeconds, Ok, Elapsed, MeteredDistance;
    if pc.CommitEnd? {
      assert Knows(db, Uncaching(pc.b.r, FINISHED));
    } else if pc.LoadTrip? && pc.b.r in db.trips {
      PausedTimeStored(db, pc.b.r);
    }
  }

  lemma OthersAct(db: Db, k: Keys, p: Proc, i: Input)
    requires MoneySound(db) && Knows(db, p) && !p.Accepting? && !p.Ending?
    ensures var a := Step(db, k, p, i); JustifiedStep(db, a.tx) && Knows(db, a.next)
  {
    hide MoneySound, Ok;
  }

  /** A request acts only on facts that still hold, and then knows enough for its next step. */
  lemma StepActs(db: Db, k: Keys, p: Proc, i: Input)
    requires Inv(db) && Knows(db, p)
    ensures var a := Step(db, k, p, i); JustifiedStep(db, a.tx) && Knows(After(db, a.tx), a.next)
  {
    var a := Step(db, k, p, i);
    if p.Accepting? {
      AcceptActs(db, k, p.accept, i);
    } else {
      if p.Ending? { EndActs(db, k, p.end, i); } else { OthersAct(db, k, p, i); }
      hide Inv, Step, Justified;
      if a.tx.Some? {
        ApplyExtends(db, a.tx.value);
        KnowledgeStays(db, After(db, a.tx), a.next);
      }
    }
  }

  // ---- every run ----

  ghost predicate Safe(w: World) {
    Inv(w.db) && Chronicle(w.db) && forall id | id in w.procs :: Knows(w.db, w.procs[id])
  }

  lemma CommitKeepsSafe(w: World, tx: Option<Tx>)
    requires Safe(w) && JustifiedStep(w.db, tx)
    ensures Safe(w.(db := After(w.db, tx)))
  {
    hide Inv, Chronicle, Justified, Apply;
    if tx.Some? {
      TxKeepsInv(w.db, tx.value);
      TxKeepsChronicle(w.db, tx.value);
      ApplyExtends(w.db, tx.value);
      forall id | id in w.procs ensures Knows(Apply(w.db, tx.value), w.procs[id]) {
        KnowledgeStays(w.db, Apply(w.db, tx.value), w.procs[id]);
      }
    }
  }

  lemma DoKeepsSafe(w: World, m: Move)
    requires Safe(w)
    ensures Safe(Do(w, m))
  {
    hide Inv, Chronicle, Justified, Apply, Step;
    match m
    case Quoted(q, quote) =>
      assert JustifiedStep(w.db, Some(InsertQuote(q, quote))) by { JustifiedQuote(w.db, q, quote); }
      CommitKeepsSafe(w, Some(InsertQuote(q, quote)));
    case Run(id, i) =>
      if id in w.procs {
        var a := Step(w.db, w.keys, w.procs[id], i);
        StepActs(w.db, w.keys, w.procs[id], i);
        CommitKeepsSafe(w, a.tx);
      }
    case _ =>
  }

  lemma JustifiedQuote(db: Db, q: QuoteId, quote: Quote)
    ensures Justified(db, InsertQuote(q, quote))
  {
  }

  /** Every run from a safe world is safe, with requests interleaved step by step,
      stopping anywhere, and Redis rewritten at will between any two steps. */
  lemma {:induction false} RunsAreSafe(w: World, moves: seq<Move>)
    requires Safe(w)
    ensures Safe(Outcomes(w, moves))
  {
    if moves != [] {
      var n := |moves| - 1;
      RunsAreSafe(w, moves[..n]);
      DoKeepsSafe(Outcomes(w, moves[..n]), moves[n]);
    }
  }

  /** A database without rides is safe, so everything that follows holds of every world a
      deployment can ever reach. */
  lemma FreshIsSafe(db: Db, keys: Keys)
    requires Fresh(db)
    ensures Safe(World(db, keys, map[]))
  {
  }

  // ---- what safety means to a caller ----

  /** The main theorem: after any run from a database without rides, the tables are sound
      and the record of what was committed is in order. */
  lemma AnyRun(db: Db, keys: Keys, moves: seq<Move>)
    requires Fresh(db)
    ensures var db' := Outcomes(World(db, keys, map[]), moves).db; Inv(db') && Chronicle(db')
  {
    FreshIsSafe(db, keys);
    RunsAreSafe(World(db, keys, map[]), moves);
    hide Inv, Chronicle;
  }

  /** So whatever Redis holds, a driver is on trip exactly when an active ride carries the
      driver, and one only. */
  lemma OnTripAfterAnyRun(db: Db, keys: Keys, moves: seq<Move>, d: DriverId)
    requires Fresh(db) && d in Outcomes(World(db, keys, map[]), moves).db.drivers
    ensures var db' := Outcomes(World(db, keys, map[]), moves).db;
      && (db'.drivers[d].status == OnTrip <==> exists r :: Drives(db', r, d))
      && (forall r, r' | Drives(db', r, d) && Drives(db', r', d) :: r == r')
  {
    hide Inv, Chronicle;
    AnyRun(db, keys, moves);
    LedgerTheorems.OnTripIffOneRide(Outcomes(World(db, keys, map[]), moves).db, d);
  }

  /** All amounts and durations recorded of a completed ride agree. */
  lemma MoneyAfterAnyRun(db: Db, keys: Keys, moves: seq<Move>, r: RideId)
    requires Fresh(db) && HasStatus(Outcomes(World(db, keys, map[]), moves).db, r, Completed)
    ensures var db' := Outcomes(World(db, keys, map[]), moves).db;
      && Billed(db', r)
      && (forall p | p in db'.payments && db'.payments[p].ride == r :: LedgerTheorems.Agrees(db', r, p))
      && (forall p, p' | p in db'.payments && p' in db'.payments
            && db'.payments[p].ride == r && db'.payments[p'].ride == r :: p == p')
  {
    hide Inv, Chronicle, LedgerTheorems.Agrees;
    AnyRun(db, keys, moves);
    LedgerTheorems.OneAmount(Outcomes(World(db, keys, map[]), moves).db, r);
  }

  /** A ride never changes status more than six times, nor a payment more than three times
      in each direction; a reference settles at most once. */
  lemma BoundedAfterAnyRun(db: Db, keys: Keys, moves: seq<Move>, r: RideId, p: PaymentId, ref: PspRef)
    requires Fresh(db)
    ensures var log := Outcomes(World(db, keys, map[]), moves).db.log;
      && PathsLegal(log) && Count(log, MovesOf(r)) <= 6 && Count(log, AssignmentsOf(r)) <= 1
      && Count(log, AttemptsOn(p)) <= 3 && Count(log, FailuresOf(p)) + Count(log, SuccessesOf(p)) <= Count(log, AttemptsOn(p))
      && Count(log, SettlementsOf(ref)) <= 1
  {
    hide Inv;
    AnyRun(db, keys, moves);
    var db' := Outcomes(World(db, keys, map[]), moves).db;
    AtMostSixMoves(db', r);
    PaymentsTerminate(db', p, ref);
    assert RideLoggedIn(db', r);
  }

  /** Acceptances that report success for one ride all name the same driver, the one the
      ride still has. */
  lemma AcceptancesAgree(w: World, id: nat, id': nat, r: RideId, d: DriverId, d': DriverId)
    requires Safe(w)
    requires id in w.procs && w.procs[id] == Done(Accepted(d, r))
    requires id' in w.procs && w.procs[id'] == Done(Accepted(d', r))
    ensures d == d' && r in w.db.rides && w.db.rides[r].driver == Some(d)
  {
  }

  /** The actor a request checked, in a step before its commit. */
  function ActorOf(p: Proc): Option<(RideId, Actor)> {
    match p
    case Cancelling(CommitCancel(r, actor, _)) => Some((r, actor))
    case Progressing(CommitLeg(r, d, _)) => Some((r, ByDriver(d)))
    case Starting(CommitStart(d, r)) => Some((r, ByDriver(d)))
    case Pausing(CommitPause(d, r)) => Some((r, ByDriver(d)))
    case Resuming(CommitResume(d, r, _)) => Some((r, ByDriver(d)))
    case Ending(CommitEnd(b)) => Some((b.r, ByDriver(b.d)))
    case Triggering(CommitAttempt(rider, r, _)) => Some((r, ByRider(rider)))
    case _ => None
  }

  /** Authority read earlier is still authority when the transaction commits. */
  lemma AuthorityStaysValid(w: World, id: nat)
    requires Safe(w) && id in w.procs && ActorOf(w.procs[id]).Some?
    ensures var (r, actor) := ActorOf(w.procs[id]).value; Entitled(w.db, r, actor)
  {
    hide Inv, Chronicle;
    assert Knows(w.db, w.procs[id]);
  }

}
