/** Who gets offered what. The assignment transaction tests neither tier nor city; that an
    assigned driver has the ride's tier and its quote's city follows from how the Redis
    keys are written, so long as nobody else writes them. Keys may be lost at any time. */
module ProtocolMatching {
  import opened Prelude
  import opened Pricing
  import opened RideStates
  import opened Ledger
  import opened LedgerInvariants
  import opened LedgerHistory
  import opened LedgerGrowth
  import opened Redis
  import opened Protocol
  import opened ProtocolSafety

  predicate SearchFits(db: Db, s: Search) {
    && s.r in db.rides && db.rides[s.r].quote in db.quotes
    && s.tier == db.rides[s.r].tier && s.city == db.quotes[db.rides[s.r].quote].city
  }

  /** Driver d has the tier ride r was booked at and the city it was quoted in. */
  predicate Fits(db: Db, d: DriverId, r: RideId) {
    && r in db.rides && d in db.drivers && db.rides[r].quote in db.quotes
    && db.drivers[d].tier == db.rides[r].tier && db.drivers[d].city == db.quotes[db.rides[r].quote].city
  }

  ghost predicate RidesFit(db: Db) {
    forall r | r in db.rides && db.rides[r].driver.Some? :: Fits(db, db.rides[r].driver.value, r)
  }

  // ---- keys ----

  predicate LivesIn(db: Db, d: DriverId, city: City) {
    d in db.drivers && db.drivers[d].city == city
  }

  predicate CopiesRow(db: Db, d: DriverId, tier: Tier, city: City) {
    LivesIn(db, d, city) && db.drivers[d].tier == tier
  }

  predicate MirrorFits(db: Db, d: DriverId, m: Mirror) {
    CopiesRow(db, d, m.tier, m.city)
  }

  ghost predicate KeysFit(db: Db, k: Keys) {
    && (forall d | d in k.offerDriver :: Fits(db, d, k.offerDriver[d]))
    && (forall d | d in k.mirror :: MirrorFits(db, d, k.mirror[d]))
    && (forall c, d | (c, d) in k.geo :: LivesIn(db, d, c))
  }

  // ---- requests ----

  predicate AllLiveIn(db: Db, ds: seq<DriverId>, city: City) {
    forall d | d in ds :: LivesIn(db, d, city)
  }

  predicate OfferFits(db: Db, pc: OfferPc) {
    SearchFits(db, pc.s) &&
    match pc
    case FindNearby(_) => true
    case ReadTried(s, left) => AllLiveIn(db, left, s.city)
    case ReadCandidate(s, _, left) => AllLiveIn(db, left, s.city)
    case Claim(s, _, left) => AllLiveIn(db, left, s.city) && (left != [] ==> Fits(db, left[0], s.r))
    case Record(_, _) => true
  }

  predicate RowsFit(db: Db, rows: seq<Row>) {
    forall row | row in rows :: SearchFits(db, row.search)
  }

  predicate SweepFits(db: Db, pc: SweepPc) {
    match pc
    case ClaimBatch => true
    case NextRow(rows, _) => RowsFit(db, rows)
    case ExpireRow(_, rows, _) => RowsFit(db, rows)
    case UncacheExpired(_, rows, _) => RowsFit(db, rows)
    case CheckOffer(s, rows, _) => SearchFits(db, s) && RowsFit(db, rows)
  }

  predicate AcceptFits(db: Db, pc: AcceptPc) {
    && (pc.Assign? ==> Fits(db, pc.d, pc.r))
    && (pc.MarkDriver? ==> CopiesRow(db, pc.d, pc.tier, pc.city))
  }

  predicate ToggleFits(db: Db, pc: AvailabilityPc) {
    match pc
    case CommitAvailability(_, _) => true
    case ClearStale(d, tier, city) => CopiesRow(db, d, tier, city)
    case MirrorAvailable(d, tier, city) => CopiesRow(db, d, tier, city)
    case ReadLast(d, city) => LivesIn(db, d, city)
    case PoolAvailable(d, city, _) => LivesIn(db, d, city)
    case TakeOutstanding(d, tier, city) => CopiesRow(db, d, tier, city)
    case DropOutstanding(d, _, tier, city) => CopiesRow(db, d, tier, city)
    case LeavePool(d, tier, city) => CopiesRow(db, d, tier, city)
  }

  predicate ReleaseFits(db: Db, pc: ReleasePc) {
    match pc
    case LoadDriver(_) => true
    case MirrorReleased(d, m) => MirrorFits(db, d, m)
    case PoolReleased(d, city, _) => LivesIn(db, d, city)
  }

  predicate ProcFits(db: Db, p: Proc) {
    match p
    case Offering(pc, after) => OfferFits(db, pc) && ProcFits(db, after)
    case Releasing(pc, after) => ReleaseFits(db, pc) && ProcFits(db, after)
    case Uncaching(_, after) => ProcFits(db, after)
    case Accepting(pc) => AcceptFits(db, pc)
    case Sweeping(pc) => SweepFits(db, pc)
    case Toggling(pc) => ToggleFits(db, pc)
    case Pinging(pc) => pc.WritePosition? && pc.mirror.Some? ==> MirrorFits(db, pc.d, pc.mirror.value)
    case _ => true
  }

  lemma FitsStays(db: Db, db': Db)
    requires Extends(db, db')
    ensures forall d, r | Fits(db, d, r) :: Fits(db', d, r)
    ensures forall d, c | LivesIn(db, d, c) :: LivesIn(db', d, c)
    ensures forall d, m | MirrorFits(db, d, m) :: MirrorFits(db', d, m)
    ensures forall d, t, c | CopiesRow(db, d, t, c) :: CopiesRow(db', d, t, c)
    ensures forall s | SearchFits(db, s) :: SearchFits(db', s)
  {
  }

  lemma KeysFitStays(db: Db, db': Db, k: Keys)
    requires Extends(db, db') && KeysFit(db, k)
    ensures KeysFit(db', k)
  {
  }

  lemma {:induction false} ProcFitsStays(db: Db, db': Db, p: Proc)
    requires Extends(db, db') && ProcFits(db, p)
    ensures ProcFits(db', p)
  {
    FitsStays(db, db');
    hide Extends, Fits, MirrorFits, LivesIn, CopiesRow, SearchFits;
    match p
    case Offering(_, after) => ProcFitsStays(db, db', after);
    case Releasing(_, after) => ProcFitsStays(db, db', after);
    case Uncaching(_, after) => ProcFitsStays(db, db', after);
    case _ =>
  }

  // ---- steps ----

  lemma {:induction false} BatchRowsFit(db: Db, batch: seq<RideId>)
    ensures RowsFit(db, RowsOf(db, batch))
  {
    if batch != [] { BatchRowsFit(db, batch[1..]); }
  }

  lemma EligibleFits(db: Db, k: Keys, s: Search, left: seq<DriverId>)
    requires KeysFit(db, k) && SearchFits(db, s) && AllLiveIn(db, left, s.city) && left != []
    requires Eligible(Lookup(k.mirror, left[0]), left[0] in k.last, s.tier)
    ensures Fits(db, left[0], s.r)
  {
    assert left[0] in left && left[0] in k.mirror;
  }

  lemma OfferStepFits(db: Db, k: Keys, pc: OfferPc, after: Proc, i: Input)
    requires KeysFit(db, k) && OfferFits(db, pc) && ProcFits(db, after)
    ensures var a := OfferStep(k, pc, after, i); KeysFit(db, a.keys) && ProcFits(db, a.next)
  {
    OfferKeysFit(db, k, pc, after, i);
    if (pc.ReadCandidate? || pc.Claim?) && pc.left != [] {
      CandidateStepFits(db, k, pc, after, i);
    } else {
      hide Eligible, Fits, SearchFits;
    }
  }

  lemma OfferKeysFit(db: Db, k: Keys, pc: OfferPc, after: Proc, i: Input)
    requires KeysFit(db, k) && OfferFits(db, pc)
    ensures KeysFit(db, OfferStep(k, pc, after, i).keys)
  {
  }

  lemma CandidateStepFits(db: Db, k: Keys, pc: OfferPc, after: Proc, i: Input)
    requires KeysFit(db, k) && OfferFits(db, pc) && ProcFits(db, after)
    requires (pc.ReadCandidate? || pc.Claim?) && pc.left != []
    ensures ProcFits(db, OfferStep(k, pc, after, i).next)
  {
    hide KeysFit, Fits, SearchFits;
    assert AllLiveIn(db, pc.left[1..], pc.s.city);
    if Eligible(Lookup(k.mirror, pc.left[0]), pc.left[0] in k.last, pc.s.tier) {
      EligibleFits(db, k, pc.s, pc.left);
    }
    hide Eligible, AllLiveIn;
  }

  lemma AcceptStepFits(db: Db, k: Keys, pc: AcceptPc, i: Input)
    requires KeysFit(db, k) && AcceptFits(db, pc)
    ensures var a := AcceptStep(db, k, pc, i); KeysFit(db, a.keys) && ProcFits(db, a.next)
  {
  }

  lemma SweepStepFits(db: Db, k: Keys, pc: SweepPc, i: Input)
    requires KeysFit(db, k) && SweepFits(db, pc)
    ensures var a := SweepStep(db, k, pc, i); KeysFit(db, a.keys) && ProcFits(db, a.next)
  {
    if pc.ClaimBatch? { BatchRowsFit(db, i.batch); }
  }

  lemma ToggleStepFits(db: Db, k: Keys, pc: AvailabilityPc)
    requires KeysFit(db, k) && ToggleFits(db, pc)
    ensures var a := ToggleStep(db, k, pc); KeysFit(db, a.keys) && ProcFits(db, a.next)
  {
  }

  /** A ping pools its driver under the city its mirror names. */
  lemma PingFits(db: Db, k: Keys, d: DriverId, pos: Pos, mirror: Option<Mirror>, ride: Option<RideId>, metres: Option<real>)
    requires KeysFit(db, k) && (mirror.Some? ==> MirrorFits(db, d, mirror.value))
    ensures KeysFit(db, Ping(k, d, pos, mirror, ride, metres))
  {
  }

  lemma PingStepFits(db: Db, k: Keys, pc: PingPc, i: Input)
    requires KeysFit(db, k) && ProcFits(db, Pinging(pc))
    ensures var a := PingStep(k, pc, i); KeysFit(db, a.keys) && ProcFits(db, a.next)
  {
    hide Ping;
    match pc
    case ReadMirrors(d, pos) => hide Fits, LivesIn;
    case WritePosition(d, pos, mirror, ride, metres) =>
      hide KeysFit;
      PingFits(db, k, d, pos, mirror, ride, metres);
  }

  lemma ReleaseStepFits(db: Db, k: Keys, pc: ReleasePc, after: Proc)
    requires KeysFit(db, k) && ReleaseFits(db, pc) && ProcFits(db, after)
    ensures var a := ReleaseStep(db, k, pc, after); KeysFit(db, a.keys) && ProcFits(db, a.next)
  {
  }

  predicate SameToDispatch(k: Keys, k': Keys) {
    k'.offerDriver == k.offerDriver && k'.mirror == k.mirror && k'.geo == k.geo
  }

  lemma SameKeysFit(db: Db, k: Keys, k': Keys)
    requires KeysFit(db, k) && SameToDispatch(k, k')
    ensures KeysFit(db, k')
  {
  }

  lemma DeclineStepFits(db: Db, k: Keys, pc: DeclinePc)
    requires KeysFit(db, k)
    ensures var a := DeclineStep(db, k, pc); KeysFit(db, a.keys) && ProcFits(db, a.next)
  {
  }

  lemma RideKeysQuiet(k: Keys)
    ensures forall r :: SameToDispatch(k, Uncache(k, r))
    ensures forall r :: SameToDispatch(k, ClearDist(k, r))
    ensures forall r :: SameToDispatch(k, TakePausedAt(k, r))
    ensures forall r, now :: SameToDispatch(k, SetPausedAt(k, r, now))
  {
  }

  /** Requests of the rider and of the assigned driver touch no key of the offer loop. */
  lemma RideStepFits(db: Db, k: Keys, p: Proc, i: Input)
    requires ProcFits(db, p)
    requires p.Done? || p.Creating? || p.Cancelling? || p.Progressing? || p.Regenerating? || p.Uncaching?
    ensures var a := Step(db, k, p, i); SameToDispatch(k, a.keys) && ProcFits(db, a.next)
  {
    hide Ok, QuoteUsable, Entitled, Uncache;
    RideKeysQuiet(k);
  }

  lemma GetStepFits(db: Db, k: Keys, pc: GetPc)
    ensures var a := GetStep(db, k, pc); SameToDispatch(k, a.keys) && ProcFits(db, a.next)
  {
  }

  lemma TripStepFits(db: Db, k: Keys, p: Proc, i: Input)
    requires p.Starting? || p.Pausing? || p.Resuming? || p.Triggering? || p.Confirming?
    ensures var a := Step(db, k, p, i); SameToDispatch(k, a.keys) && ProcFits(db, a.next)
  {
    hide Ok, LatestPayment, MayStart, Uncache, ClearDist, TakePausedAt, SetPausedAt;
    RideKeysQuiet(k);
  }

  lemma EndStepFits(db: Db, k: Keys, pc: EndPc, i: Input)
    ensures var a := EndStep(db, k, pc, i); SameToDispatch(k, a.keys) && ProcFits(db, a.next)
  {
    hide Ok, FareOf, Elapsed, MeteredDistance, ClearDist, TakePausedAt;
    RideKeysQuiet(k);
    assert forall r :: ProcFits(db, Uncaching(r, FINISHED));
  }

  lemma StepFits(db: Db, k: Keys, p: Proc, i: Input)
    requires KeysFit(db, k) && ProcFits(db, p)
    ensures var a := Step(db, k, p, i); KeysFit(db, a.keys) && ProcFits(db, a.next)
  {
    hide KeysFit, OfferStep, AcceptStep, DeclineStep, SweepStep, ToggleStep, PingStep, ReleaseStep, EndStep;
    match p
    case Offering(pc, after) => OfferStepFits(db, k, pc, after, i);
    case Accepting(pc) => AcceptStepFits(db, k, pc, i);
    case Declining(pc) => DeclineStepFits(db, k, pc);
    case Sweeping(pc) => SweepStepFits(db, k, pc, i);
    case Toggling(pc) => ToggleStepFits(db, k, pc);
    case Pinging(pc) => PingStepFits(db, k, pc, i);
    case Releasing(pc, after) => ReleaseStepFits(db, k, pc, after);
    case _ =>
      QuietStepFits(db, k, p, i);
      SameKeysFit(db, k, Step(db, k, p, i).keys);
  }

  lemma QuietStepFits(db: Db, k: Keys, p: Proc, i: Input)
    requires ProcFits(db, p)
    requires !p.Offering? && !p.Accepting? && !p.Declining? && !p.Sweeping? && !p.Toggling? && !p.Pinging? && !p.Releasing?
    ensures var a := Step(db, k, p, i); SameToDispatch(k, a.keys) && ProcFits(db, a.next)
  {
    hide EndStep, GetStep;
    if p.Ending? {
      EndStepFits(db, k, p.end, i);
    } else if p.Getting? {
      GetStepFits(db, k, p.get);
    } else {
      hide Step;
      if p.Starting? || p.Pausing? || p.Resuming? || p.Triggering? || p.Confirming? {
        TripStepFits(db, k, p, i);
      } else {
        RideStepFits(db, k, p, i);
      }
    }
  }

  /** Only an assignment gives a ride a driver. */
  lemma DriverOnlyByAssignment(db: Db, tx: Tx, r: RideId)
    requires r in Apply(db, tx).rides && Apply(db, tx).rides[r].driver.Some?
    ensures (r in db.rides && db.rides[r].driver == Apply(db, tx).rides[r].driver)
         || (tx.AssignRide? && tx.r == r && Apply(db, tx).rides[r].driver == Some(tx.d))
  {
    hide ReceiptOf;
  }

  lemma OnlyAcceptanceAssigns(db: Db, k: Keys, p: Proc, i: Input)
    requires ProcFits(db, p)
    ensures var a := Step(db, k, p, i); a.tx.Some? && a.tx.value.AssignRide? ==> Fits(db, a.tx.value.d, a.tx.value.r)
  {
    hide Ok, FareOf, Fits, Elapsed;
  }

  lemma CommitKeepsRidesFit(db: Db, tx: Tx)
    requires RidesFit(db) && Extends(db, Apply(db, tx)) && (tx.AssignRide? ==> Fits(db, tx.d, tx.r))
    ensures RidesFit(Apply(db, tx))
  {
    FitsStays(db, Apply(db, tx));
    hide Apply, Fits, Extends;
    forall r | r in Apply(db, tx).rides && Apply(db, tx).rides[r].driver.Some?
      ensures Fits(Apply(db, tx), Apply(db, tx).rides[r].driver.value, r)
    {
      DriverOnlyByAssignment(db, tx, r);
    }
  }

  // ---- every run ----

  ghost predicate AllFit(w: World) {
    RidesFit(w.db) && KeysFit(w.db, w.keys) && forall id | id in w.procs :: ProcFits(w.db, w.procs[id])
  }

  lemma LossKeepsFit(db: Db, k: Keys, k': Keys)
    requires KeysFit(db, k) && Evicted(k, k')
    ensures KeysFit(db, k')
  {
  }

  lemma CommitKeepsFit(w: World, tx: Tx)
    requires Safe(w) && AllFit(w) && Justified(w.db, tx) && (tx.AssignRide? ==> Fits(w.db, tx.d, tx.r))
    ensures AllFit(w.(db := Apply(w.db, tx)))
  {
    hide Inv, Chronicle, KeysFit, RidesFit, Apply, Fits;
    ApplyExtends(w.db, tx);
    hide Extends, Justified;
    CommitKeepsRidesFit(w.db, tx);
    KeysFitStays(w.db, Apply(w.db, tx), w.keys);
    forall id | id in w.procs ensures ProcFits(Apply(w.db, tx), w.procs[id]) {
      ProcFitsStays(w.db, Apply(w.db, tx), w.procs[id]);
    }
  }

  lemma RunKeepsFit(w: World, id: nat, i: Input)
    requires Safe(w) && AllFit(w) && id in w.procs
    ensures AllFit(Do(w, Run(id, i)))
  {
    hide Inv, Chronicle, KeysFit, RidesFit, Step, Apply, Knows, Fits, Justified;
    var a := Step(w.db, w.keys, w.procs[id], i);
    StepActs(w.db, w.keys, w.procs[id], i);
    StepFits(w.db, w.keys, w.procs[id], i);
    OnlyAcceptanceAssigns(w.db, w.keys, w.procs[id], i);
    var w' := World(w.db, a.keys, w.procs[id := a.next]);
    if a.tx.Some? {
      ApplyExtends(w.db, a.tx.value);
      hide Extends;
      CommitKeepsRidesFit(w.db, a.tx.value);
      KeysFitStays(w.db, Apply(w.db, a.tx.value), a.keys);
      forall j | j in w'.procs ensures ProcFits(Apply(w.db, a.tx.value), w'.procs[j]) {
        ProcFitsStays(w.db, Apply(w.db, a.tx.value), w'.procs[j]);
      }
    }
  }

  lemma DoKeepsFit(w: World, m: Move)
    requires Safe(w) && AllFit(w) && !m.Havoc?
    ensures AllFit(Do(w, m))
  {
    hide Inv, Chronicle, KeysFit, RidesFit, Step, Apply, Evicted, Knows, Fits, Justified;
    match m
    case Quoted(q, quote) =>
      JustifiedQuote(w.db, q, quote);
      CommitKeepsFit(w, InsertQuote(q, quote));
    case Run(id, i) =>
      if id in w.procs { RunKeepsFit(w, id, i); }
    case Evict(keys) =>
      if Evicted(w.keys, keys) { LossKeepsFit(w.db, w.keys, keys); }
    case _ =>
  }

  predicate Undisturbed(moves: seq<Move>) {
    forall m | m in moves :: !m.Havoc?
  }

  lemma {:induction false} RunsFit(w: World, moves: seq<Move>)
    requires Safe(w) && AllFit(w) && Undisturbed(moves)
    ensures AllFit(Outcomes(w, moves))
  {
    if moves != [] {
      var n := |moves| - 1;
      assert Undisturbed(moves[..n]);
      RunsFit(w, moves[..n]);
      RunsAreSafe(w, moves[..n]);
      DoKeepsFit(Outcomes(w, moves[..n]), moves[n]);
    }
  }

  /** After any run in which only this program writes Redis: every driver ever assigned to
      a ride, and every driver holding an offer for one, has its tier and its quote's city. */
  lemma OfferedAndAssignedDriversFit(db: Db, moves: seq<Move>)
    requires Fresh(db) && Undisturbed(moves)
    ensures var w := Outcomes(World(db, FLUSHED, map[]), moves);
      && (forall r | r in w.db.rides && w.db.rides[r].driver.Some? :: Fits(w.db, w.db.rides[r].driver.value, r))
      && (forall d | d in w.keys.offerDriver :: Fits(w.db, d, w.keys.offerDriver[d]))
  {
    FreshIsSafe(db, FLUSHED);
    RunsFit(World(db, FLUSHED, map[]), moves);
    hide Safe;
  }

}
