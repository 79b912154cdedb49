/** Requests one after another: every request run alone, to its end, from keys in step
    with the tables leaves them in step, and reads of rides show what the tables hold. */
module CoherentRuns {
  import opened Prelude
  import opened Pricing
  import opened RideStates
  import opened Ledger
  import opened LedgerInvariants
  import opened LedgerHistory
  import opened LedgerGrowth
  import opened LedgerTheorems
  import opened Redis
  import opened Protocol
  import opened ProtocolSafety
  import opened Coherence

  // ---- single commands ----

  predicate SameToExact(k: Keys, k': Keys) {
    k'.mirror == k.mirror && k'.marker == k.marker && k'.geo == k.geo && k'.cache == k.cache
  }

  lemma ExactFrame(db: Db, k: Keys, k': Keys, lag: Lag)
    requires Exact(db, k, lag) && SameToExact(k, k')
    ensures Exact(db, k', lag)
  {
  }

  lemma UncacheExact(db: Db, k: Keys, ds: set<DriverId>, r: RideId)
    requires Exact(db, k, Lag(ds, {r}))
    ensures Exact(db, Uncache(k, r), Lag(ds, {}))
  {
  }

  lemma MarkOnTripExact(db: Db, k: Keys, d: DriverId, r: RideId, city: City, tier: Tier, rs: set<RideId>)
    requires DriversExclusive(db) && Exact(db, k, Lag({d}, rs)) && Drives(db, r, d) && RowIs(db, d, Mirror(OnTrip, tier, city))
    ensures Exact(db, MarkOnTrip(k, d, r, city, tier), Lag({}, rs))
  {
  }

  /** Once a driver without an active ride has no marker and a fresh mirror, nothing lags. */
  lemma MirrorExact(db: Db, k: Keys, d: DriverId, rs: set<RideId>)
    requires DriversExclusive(db) && Exact(db, k, Lag({d}, rs)) && d in db.drivers && db.drivers[d].status != OnTrip
    requires db.drivers[d].status == Available || forall c :: (c, d) !in k.geo
    ensures Exact(db, WriteMirror(ClearMarker(k, d), d, MirrorOf(db.drivers[d])), Lag({}, rs))
  {
  }

  lemma PoolJoinExact(db: Db, k: Keys, d: DriverId, city: City, pos: Pos, lag: Lag)
    requires Exact(db, k, lag) && InPool(db, d, city)
    ensures Exact(db, GeoAdd(k, city, d, pos), lag)
  {
  }

  // ---- steps of each request ----

  /** A step that commits leaves exactly what its transaction touched to the next one. */
  lemma CommitInStep(db: Db, k: Keys, tx: Tx, next: Proc, otherwise: Proc)
    requires Inv(db) && Justified(db, tx) && Coherent(db, k)
    requires Ok(db, tx) ==> Behind(next) == Touched(db, tx) && Note(Apply(db, tx), k, next)
    requires Behind(otherwise) == NO_LAG && Note(db, k, otherwise)
    ensures var a := Commit(db, k, tx, next, otherwise); InStep(After(db, a.tx), a.keys, a.next)
  {
    hide Inv, Justified, Effect, Touched, Ok, Exact;
    CommitLags(db, k, tx);
  }

  lemma AssignNotes(db: Db, k: Keys, r: RideId, d: DriverId, otp: string, now: int)
    requires Ok(db, AssignRide(r, d, otp, now))
    ensures Note(Apply(db, AssignRide(r, d, otp, now)), k, Accepting(LoadCard(d, r)))
  {
  }

  lemma AcceptInStep(db: Db, k: Keys, pc: AcceptPc, i: Input)
    requires Inv(db) && InStep(db, k, Accepting(pc))
    ensures var a := AcceptStep(db, k, pc, i); InStep(After(db, a.tx), a.keys, a.next)
  {
    hide Inv, Exact;
    var a := AcceptStep(db, k, pc, i);
    match pc
    case TakeHeld(d, r) => ExactFrame(db, k, a.keys, NO_LAG);
    case Assign(d, r) =>
      if Ok(db, a.tx.value) { AssignNotes(db, k, r, d, i.otp, i.now); }
      hide Ok, Apply;
      CommitInStep(db, k, a.tx.value, Accepting(LoadCard(d, r)), REJECTED);
    case LoadCard(d, r) => DriverOnTrip(db, r, d);
    case MarkDriver(d, r, city, tier) =>
      SoundPeople(db);
      MarkOnTripExact(db, k, d, r, city, tier, {r});
    case UncacheTaken(d, r) => UncacheExact(db, k, {}, r);
    case DropTaken(d, r) => ExactFrame(db, k, a.keys, NO_LAG);
    case _ =>
  }

  lemma DriverOnTrip(db: Db, r: RideId, d: DriverId)
    requires Inv(db) && Drives(db, r, d)
    ensures d in db.drivers && db.drivers[d].status == OnTrip
  {
  }

  /** Offers and tried sets are not mirrors of any row. */
  lemma OfferKeysKept(k: Keys, pc: OfferPc, after: Proc, i: Input)
    ensures var a := OfferStep(k, pc, after, i);
      a.tx == None && SameToExact(k, a.keys) && (a.next == after || (a.next.Offering? && a.next.after == after))
  {
    hide OfferStep;
    OfferStepOffersOnly(k, pc, after, i);
  }

  lemma OfferInStep(db: Db, k: Keys, pc: OfferPc, after: Proc, i: Input)
    requires InStep(db, k, Offering(pc, after))
    ensures var a := OfferStep(k, pc, after, i); a.tx == None && InStep(db, a.keys, a.next)
  {
    hide Exact, OfferStep;
    OfferKeysKept(k, pc, after, i);
    ExactFrame(db, k, OfferStep(k, pc, after, i).keys, NO_LAG);
  }

  lemma DeclineInStep(db: Db, k: Keys, pc: DeclinePc)
    requires InStep(db, k, Declining(pc))
    ensures var a := DeclineStep(db, k, pc); a.tx == None && InStep(db, a.keys, a.next)
  {
  }

  lemma CreateInStep(db: Db, k: Keys, pc: CreatePc, i: Input)
    requires Inv(db) && InStep(db, k, Creating(pc))
    ensures var a := CreateStep(db, k, pc, i); InStep(After(db, a.tx), a.keys, a.next)
  {
    hide Inv, Exact, Apply, Ok, SearchOf, QuoteUsable;
    var a := CreateStep(db, k, pc, i);
    match pc
    case UncacheNew(r) => UncacheExact(db, k, {}, r);
    case InsertRow(_) => CommitInStep(db, k, a.tx.value, Creating(ToMatching(i.newId)), REJECTED);
    case ToMatching(r) => CommitInStep(db, k, a.tx.value, Creating(UncacheNew(r)), REJECTED);
    case _ =>
  }

  lemma {:induction false} SweepInStep(db: Db, k: Keys, pc: SweepPc, i: Input)
    requires Inv(db) && InStep(db, k, Sweeping(pc))
    ensures var a := SweepStep(db, k, pc, i); InStep(After(db, a.tx), a.keys, a.next)
  {
    hide Inv, Exact, Apply, Ok, RowsOf;
    var a := SweepStep(db, k, pc, i);
    match pc
    case ExpireRow(r, rows, now) =>
      CommitInStep(db, k, a.tx.value, Sweeping(UncacheExpired(r, rows, now)), Sweeping(NextRow(rows, now)));
    case UncacheExpired(r, _, _) => UncacheExact(db, k, {}, r);
    case _ =>
  }

  lemma CancelNotes(db: Db, k: Keys, r: RideId, to: RideStatus, reason: Option<string>, now: int)
    requires Ok(db, CancelRide(r, to, reason, now))
    requires db.rides[r].driver.Some? ==> db.rides[r].driver.value in db.drivers && db.drivers[db.rides[r].driver.value].status == OnTrip
    ensures Note(Apply(db, CancelRide(r, to, reason, now)), k, Cancelling(UncacheCancelled(r, db.rides[r].driver)))
  {
  }

  lemma CancelInStep(db: Db, k: Keys, pc: CancelPc, i: Input)
    requires Inv(db) && InStep(db, k, Cancelling(pc))
    ensures var a := CancelStep(db, k, pc, i); InStep(After(db, a.tx), a.keys, a.next)
  {
    hide Inv, Exact, Apply, Entitled;
    var a := CancelStep(db, k, pc, i);
    match pc
    case CommitCancel(r, actor, reason) =>
      var driver := if r in db.rides then db.rides[r].driver else None;
      if Ok(db, a.tx.value) {
        if driver.Some? { StillDriving(db, r, driver.value); }
        CancelNotes(db, k, r, CancelTarget(actor), reason, i.now);
      }
      hide Ok;
      CommitInStep(db, k, a.tx.value, Cancelling(UncacheCancelled(r, driver)), REJECTED);
    case UncacheCancelled(r, driver) => UncacheExact(db, k, Only(driver), r);
    case _ =>
  }

  lemma ProgressInStep(db: Db, k: Keys, pc: ProgressPc, i: Input)
    requires Inv(db) && InStep(db, k, Progressing(pc))
    ensures var a := ProgressStep(db, k, pc, i); InStep(After(db, a.tx), a.keys, a.next)
  {
    hide Inv, Exact, Apply, Ok;
    var a := ProgressStep(db, k, pc, i);
    match pc
    case CommitLeg(r, _, _) => CommitInStep(db, k, a.tx.value, Progressing(UncacheLeg(r)), REJECTED);
    case UncacheLeg(r) => UncacheExact(db, k, {}, r);
    case _ =>
  }

  lemma RegenerateInStep(db: Db, k: Keys, p: Proc, i: Input)
    requires Inv(db) && p.Regenerating? && InStep(db, k, p)
    ensures var a := Step(db, k, p, i); InStep(After(db, a.tx), a.keys, a.next)
  {
    hide Inv, Exact, Apply, Ok;
    CommitInStep(db, k, RegenerateOtp(p.r, p.rider, i.otp, i.now), FINISHED, REJECTED);
  }

  lemma GetInStep(db: Db, k: Keys, pc: GetPc)
    requires InStep(db, k, Getting(pc))
    ensures var a := GetStep(db, k, pc); a.tx == None && InStep(db, a.keys, a.next)
  {
  }

  lemma ToggleNotes(db: Db, k: Keys, d: DriverId, available: bool)
    requires Ok(db, SetAvailability(d, available))
    ensures Note(Apply(db, SetAvailability(d, available)), k, ToggleStep(db, k, CommitAvailability(d, available)).next)
  {
  }

  lemma ToggleCommits(db: Db, k: Keys, d: DriverId, available: bool)
    requires Inv(db) && Coherent(db, k)
    ensures var a := ToggleStep(db, k, CommitAvailability(d, available)); InStep(After(db, a.tx), a.keys, a.next)
  {
    hide Inv, Exact, Ok, Apply;
    if d in db.drivers {
      var (tier, city) := (db.drivers[d].tier, db.drivers[d].city);
      if Ok(db, SetAvailability(d, available)) { ToggleNotes(db, k, d, available); }
      CommitInStep(db, k, SetAvailability(d, available),
                   Toggling(if available then ClearStale(d, tier, city) else TakeOutstanding(d, tier, city)), REJECTED);
    }
  }

  lemma JoinInStep(db: Db, k: Keys, pc: AvailabilityPc)
    requires Inv(db) && InStep(db, k, Toggling(pc))
    requires pc.ClearStale? || pc.MirrorAvailable? || pc.ReadLast? || pc.PoolAvailable?
    ensures var a := ToggleStep(db, k, pc); a.tx == None && InStep(db, a.keys, a.next)
  {
    hide Inv, Exact;
    match pc
    case ClearStale(d, _, _) => ClearExact(db, k, d);
    case MirrorAvailable(d, _, _) =>
      SoundPeople(db);
      assert ClearMarker(k, d) == k;
      hide ClearMarker, PeopleSound;
      MirrorExact(db, k, d, {}) by { SoundDrivers(db); }
    case ReadLast(_, _) =>
    case PoolAvailable(d, city, pos) => PoolJoinExact(db, k, d, city, pos, NO_LAG);
  }

  lemma SoundDrivers(db: Db)
    requires Inv(db)
    ensures DriversExclusive(db)
  {
  }

  lemma LeaveInStep(db: Db, k: Keys, pc: AvailabilityPc)
    requires Inv(db) && InStep(db, k, Toggling(pc))
    requires pc.TakeOutstanding? || pc.DropOutstanding? || pc.LeavePool?
    ensures var a := ToggleStep(db, k, pc); a.tx == None && InStep(db, a.keys, a.next)
  {
    hide Inv, Exact;
    match pc
    case TakeOutstanding(d, _, _) => ExactFrame(db, k, TakeOffer(k, d), Lag({d}, {}));
    case DropOutstanding(d, r, _, _) => ExactFrame(db, k, DropOfferRide(k, r), Lag({d}, {}));
    case LeavePool(d, tier, city) =>
      LeaveExact(db, k, d, city);
      SoundDrivers(db);
      hide DriversExclusive;
      MirrorExact(db, k.(geo := k.geo - {(city, d)}), d, {});
  }

  lemma ToggleInStep(db: Db, k: Keys, pc: AvailabilityPc)
    requires Inv(db) && InStep(db, k, Toggling(pc))
    ensures var a := ToggleStep(db, k, pc); InStep(After(db, a.tx), a.keys, a.next)
  {
    hide Inv, Exact, Note;
    if pc.CommitAvailability? {
      ToggleCommits(db, k, pc.d, pc.available);
    } else if pc.TakeOutstanding? || pc.DropOutstanding? || pc.LeavePool? {
      LeaveInStep(db, k, pc);
    } else {
      JoinInStep(db, k, pc);
    }
  }

  lemma ClearExact(db: Db, k: Keys, d: DriverId)
    requires Exact(db, k, Lag({d}, {}))
    ensures Exact(db, ClearMarker(k, d), Lag({d}, {}))
  {
  }

  lemma LeaveExact(db: Db, k: Keys, d: DriverId, city: City)
    requires Exact(db, k, Lag({d}, {})) && d in db.drivers && db.drivers[d].city == city
    ensures Exact(db, k.(geo := k.geo - {(city, d)}), Lag({d}, {}))
    ensures forall c :: (c, d) !in k.geo - {(city, d)}
  {
  }

  lemma ReleaseInStep(db: Db, k: Keys, pc: ReleasePc, after: Proc)
    requires Inv(db) && InStep(db, k, Releasing(pc, after))
    ensures var a := ReleaseStep(db, k, pc, after); a.tx == None && InStep(db, a.keys, a.next)
  {
    hide Inv, Exact;
    match pc
    case LoadDriver(d) =>
    case MirrorReleased(d, m) =>
      SoundPeople(db);
      MirrorExact(db, k, d, if after.Uncaching? then {after.r} else {});
    case PoolReleased(d, city, pos) =>
      PoolJoinExact(db, k, d, city, pos, Lag({}, if after.Uncaching? then {after.r} else {}));
  }

  lemma PingExact(db: Db, k: Keys, d: DriverId, pos: Pos, mirror: Option<Mirror>, ride: Option<RideId>, metres: Option<real>)
    requires Coherent(db, k) && (mirror.Some? ==> RowIs(db, d, mirror.value))
    ensures Coherent(db, Ping(k, d, pos, mirror, ride, metres))
  {
  }

  lemma PingInStep(db: Db, k: Keys, pc: PingPc, i: Input)
    requires InStep(db, k, Pinging(pc))
    ensures var a := PingStep(k, pc, i); a.tx == None && InStep(db, a.keys, a.next)
  {
    hide Ping, ViewOf;
    match pc
    case ReadMirrors(d, _) =>
      assert d in k.mirror ==> RowIs(db, d, k.mirror[d]);
      hide Exact;
    case WritePosition(d, pos, mirror, ride, metres) =>
      hide Exact;
      PingExact(db, k, d, pos, mirror, ride, metres);
  }

  lemma StartInStep(db: Db, k: Keys, pc: StartPc, i: Input)
    requires Inv(db) && InStep(db, k, Starting(pc))
    ensures var a := StartStep(db, k, pc, i); InStep(After(db, a.tx), a.keys, a.next)
  {
    hide Inv, Exact, Apply, Ok, MayStart;
    var a := StartStep(db, k, pc, i);
    match pc
    case CommitStart(_, r) => CommitInStep(db, k, a.tx.value, Starting(ResetDist(r)), REJECTED);
    case ClearStartDist(r) => ExactFrame(db, k, a.keys, Lag({}, {r}));
    case UncacheStarted(r) => UncacheExact(db, k, {}, r);
    case _ =>
  }

  /** Pauses, payments and confirmations change no row the keys copy. */
  lemma PauseInStep(db: Db, k: Keys, p: Proc, i: Input)
    requires Inv(db) && (p.Pausing? || p.Resuming?) && InStep(db, k, p)
    ensures var a := Step(db, k, p, i); InStep(After(db, a.tx), a.keys, a.next)
  {
    hide Inv, Exact, Apply, Ok, Elapsed;
    var a := Step(db, k, p, i);
    match p
    case Pausing(CommitPause(_, r)) => CommitInStep(db, k, a.tx.value, Pausing(MarkPaused(r)), REJECTED);
    case Pausing(MarkPaused(_)) => ExactFrame(db, k, a.keys, NO_LAG);
    case Resuming(TakePause(_, _)) => ExactFrame(db, k, a.keys, NO_LAG);
    case Resuming(CommitResume(_, _, _)) => CommitInStep(db, k, a.tx.value, FINISHED, REJECTED);
    case _ =>
  }

  lemma PayInStep(db: Db, k: Keys, p: Proc, i: Input)
    requires Inv(db) && Knows(db, p) && (p.Triggering? || p.Confirming?) && InStep(db, k, p)
    ensures var a := Step(db, k, p, i); InStep(After(db, a.tx), a.keys, a.next)
  {
    hide Inv, Exact, Apply, Ok, LatestPayment;
    var a := Step(db, k, p, i);
    match p
    case Triggering(CommitAttempt(_, _, _)) => CommitInStep(db, k, a.tx.value, FINISHED, REJECTED);
    case Confirming(CommitSettlement(_, _, _)) => CommitInStep(db, k, a.tx.value, FINISHED, FINISHED);
    case _ =>
  }

  lemma StillDriving(db: Db, r: RideId, d: DriverId)
    requires Inv(db) && DrivenBy(db, r, d) && Active(db.rides[r].status)
    ensures d in db.drivers && db.drivers[d].status == OnTrip
  {
    DriverOnTrip(db, r, d);
  }

  lemma EndsActiveRide(db: Db, tx: Tx)
    requires tx.EndTrip? && Ok(db, tx)
    ensures tx.r in db.rides && Active(db.rides[tx.r].status)
  {
  }

  lemma EndNotes(db: Db, k: Keys, tx: Tx)
    requires tx.EndTrip? && Ok(db, tx) && tx.d in db.drivers && db.drivers[tx.d].status == OnTrip
    ensures Note(Apply(db, tx), k, Releasing(LoadDriver(tx.d), Uncaching(tx.r, FINISHED)))
  {
  }

  lemma EndCommits(db: Db, k: Keys, b: Bill, i: Input)
    requires Inv(db) && BilledPrice(db, b) && Coherent(db, k)
    ensures var a := EndStep(db, k, CommitEnd(b), i); InStep(After(db, a.tx), a.keys, a.next)
  {
    hide Inv, Exact, Apply, Ok;
    var a := EndStep(db, k, CommitEnd(b), i);
    assert Justified(db, a.tx.value);
    hide Justified, FareOf;
    if Ok(db, a.tx.value) {
      EndsActiveRide(db, a.tx.value);
      StillDriving(db, b.r, b.d);
      EndNotes(db, k, a.tx.value);
    }
    CommitInStep(db, k, a.tx.value, Releasing(LoadDriver(b.d), Uncaching(b.r, FINISHED)), REJECTED);
  }

  lemma EndInStep(db: Db, k: Keys, pc: EndPc, i: Input)
    requires Inv(db) && EndKnows(db, pc) && InStep(db, k, Ending(pc))
    ensures var a := EndStep(db, k, pc, i); InStep(After(db, a.tx), a.keys, a.next)
  {
    hide Inv, Exact, Apply, Ok, Elapsed, MeteredDistance, FareOf;
    match pc
    case FoldPause(b) => ExactFrame(db, k, TakePausedAt(k, b.r), NO_LAG);
    case ClearEndDist(b) => ExactFrame(db, k, ClearDist(k, b.r), NO_LAG);
    case CommitEnd(b) => EndCommits(db, k, b, i);
    case _ =>
  }

  /** One step of a request that runs alone keeps its keys in step. */
  lemma StepInStep(db: Db, k: Keys, p: Proc, i: Input)
    requires Inv(db) && Knows(db, p) && InStep(db, k, p)
    ensures var a := Step(db, k, p, i); InStep(After(db, a.tx), a.keys, a.next)
  {
    hide Inv, InStep, CreateStep, OfferStep, AcceptStep, DeclineStep, SweepStep, CancelStep, ProgressStep, GetStep,
         ToggleStep, ReleaseStep, PingStep, StartStep, EndStep;
    match p
    case Done(_) =>
    case Creating(pc) => CreateInStep(db, k, pc, i);
    case Offering(pc, after) => OfferInStep(db, k, pc, after, i);
    case Accepting(pc) => AcceptInStep(db, k, pc, i);
    case Declining(pc) => DeclineInStep(db, k, pc);
    case Sweeping(pc) => SweepInStep(db, k, pc, i);
    case Cancelling(pc) => CancelInStep(db, k, pc, i);
    case Progressing(pc) => ProgressInStep(db, k, pc, i);
    case Regenerating(_, _) => RegenerateInStep(db, k, p, i);
    case Getting(pc) => GetInStep(db, k, pc);
    case Toggling(pc) => ToggleInStep(db, k, pc);
    case Releasing(pc, after) => ReleaseInStep(db, k, pc, after);
    case Pinging(pc) => PingInStep(db, k, pc, i);
    case Starting(pc) => StartInStep(db, k, pc, i);
    case Pausing(_) => PauseInStep(db, k, p, i);
    case Resuming(_) => PauseInStep(db, k, p, i);
    case Ending(pc) => EndInStep(db, k, pc, i);
    case Triggering(_) => PayInStep(db, k, p, i);
    case Confirming(_) => PayInStep(db, k, p, i);
    case Uncaching(r, after) => LastUncacheInStep(db, k, r, after, i);
  }

  lemma LastUncacheInStep(db: Db, k: Keys, r: RideId, after: Proc, i: Input)
    requires InStep(db, k, Uncaching(r, after))
    ensures var a := Step(db, k, Uncaching(r, after), i); a.tx == None && InStep(db, a.keys, a.next)
  {
    hide Exact;
    UncacheExact(db, k, {}, r);
  }

  // ---- runs of requests that do not overlap ----

  ghost predicate Steady(s: Solo) {
    Inv(s.db) && Knows(s.db, s.proc) && InStep(s.db, s.keys, s.proc)
  }

  lemma SteadyStep(s: Solo, i: Input)
    requires Steady(s)
    ensures Steady(StepAlone(s, i))
  {
    hide Inv, Knows, InStep, Step, Justified, Apply;
    StepActs(s.db, s.keys, s.proc, i);
    StepInStep(s.db, s.keys, s.proc, i);
    var a := Step(s.db, s.keys, s.proc, i);
    if a.tx.Some? { TxKeepsInv(s.db, a.tx.value); }
  }

  lemma {:induction false} AloneStaysSteady(s: Solo, inputs: seq<Input>)
    requires Steady(s)
    ensures Steady(RunAlone(s, inputs))
  {
    hide Steady, StepAlone;
    if inputs != [] {
      AloneStaysSteady(s, inputs[..|inputs| - 1]);
      SteadyStep(RunAlone(s, inputs[..|inputs| - 1]), inputs[|inputs| - 1]);
    }
  }

  datatype Call =
    | Request(p: Proc, inputs: seq<Input>) // runs alone until it is done
    | Quoting(q: QuoteId, quote: Quote)
    | Expire(keys: Keys)                   // keys with a lifetime run out

  /** Expiry takes keys, but never a mirror or a marker: those have no lifetime. */
  predicate Expired(k: Keys, k': Keys) {
    Evicted(k, k') && k'.mirror == k.mirror && k'.marker == k.marker
  }

  datatype Stores = Stores(db: Db, keys: Keys)

  function Serve(s: Stores, c: Call): Stores {
    match c
    case Request(p, inputs) => var t := RunAlone(Solo(s.db, s.keys, p), inputs); Stores(t.db, t.keys)
    case Quoting(q, quote) => s.(db := Apply(s.db, InsertQuote(q, quote)))
    case Expire(keys) => s.(keys := keys)
  }

  predicate Served(s: Stores, c: Call) {
    match c
    case Request(p, inputs) => Entry(p) && RunAlone(Solo(s.db, s.keys, p), inputs).proc.Done?
    case Quoting(_, _) => true
    case Expire(keys) => Expired(s.keys, keys)
  }

  function ServeAll(s: Stores, calls: seq<Call>): Stores {
    if calls == [] then s else Serve(ServeAll(s, calls[..|calls| - 1]), calls[|calls| - 1])
  }

  predicate OneByOne(s: Stores, calls: seq<Call>) {
    calls == [] ||
    (OneByOne(s, calls[..|calls| - 1]) && Served(ServeAll(s, calls[..|calls| - 1]), calls[|calls| - 1]))
  }

  lemma EntrySteady(s: Stores, p: Proc)
    requires Inv(s.db) && Coherent(s.db, s.keys) && Entry(p)
    ensures Steady(Solo(s.db, s.keys, p))
  {
  }

  lemma ExpiryCoherent(db: Db, k: Keys, k': Keys)
    requires Coherent(db, k) && Expired(k, k')
    ensures Coherent(db, k')
  {
  }

  lemma ServeKeepsCoherent(s: Stores, c: Call)
    requires Inv(s.db) && Coherent(s.db, s.keys) && Served(s, c)
    ensures var s' := Serve(s, c); Inv(s'.db) && Coherent(s'.db, s'.keys)
  {
    hide Inv, Exact, Apply, Expired, RunAlone, Justified, Ok, Entry;
    match c
    case Request(p, inputs) =>
      EntrySteady(s, p);
      AloneStaysSteady(Solo(s.db, s.keys, p), inputs);
    case Quoting(q, quote) =>
      JustifiedQuote(s.db, q, quote);
      TxKeepsInv(s.db, InsertQuote(q, quote));
      QuoteCoherent(s.db, s.keys, q, quote);
    case Expire(keys) => ExpiryCoherent(s.db, s.keys, keys);
  }

  lemma QuoteCoherent(db: Db, k: Keys, q: QuoteId, quote: Quote)
    requires Inv(db) && Coherent(db, k)
    ensures Coherent(Apply(db, InsertQuote(q, quote)), k)
  {
    hide Inv, Exact;
    CommitLags(db, k, InsertQuote(q, quote));
  }

  /** After any sequence of requests that do not overlap: a mirror equals its driver row, a
      pooled driver is available and in its city, a marker names exactly the driver's active
      ride, and a cached ride equals a fresh load in all but the time of its last update. */
  lemma {:induction false} OneByOneCoherent(s: Stores, calls: seq<Call>)
    requires Inv(s.db) && Coherent(s.db, s.keys) && OneByOne(s, calls)
    ensures var s' := ServeAll(s, calls); Inv(s'.db) && Coherent(s'.db, s'.keys)
  {
    hide Inv, Coherent, Serve, Served;
    if calls != [] {
      var n := |calls| - 1;
      OneByOneCoherent(s, calls[..n]);
      ServeKeepsCoherent(ServeAll(s, calls[..n]), calls[n]);
    }
  }

  lemma FreshCoherent(db: Db)
    requires Fresh(db)
    ensures Inv(db) && Coherent(db, FLUSHED)
  {
  }

  // ---- reads ----

  /** What an actor is shown of a ride when nothing is cached. */
  function UncachedGet(db: Db, r: RideId, actor: Actor): Outcome {
    if r in db.rides && MaySee(ViewOf(db, r), actor) then Shown(ViewOf(db, r)) else Rejected
  }

  predicate SameOutcome(a: Outcome, b: Outcome) {
    a == b || (a.Shown? && b.Shown? && SameView(a.v, b.v))
  }

  predicate Reading(db: Db, r: RideId, actor: Actor, p: Proc) {
    match p
    case Getting(ReadCached(r', actor')) => r' == r && actor' == actor
    case Getting(LoadFresh(r', actor')) => r' == r && actor' == actor
    case Getting(FillCache(v, actor')) => r in db.rides && v == ViewOf(db, r) && actor' == actor
    case Done(outcome) => SameOutcome(outcome, UncachedGet(db, r, actor))
    case _ => false
  }

  /** A read through the cache answers as an uncached read would. */
  lemma {:induction false} GetRefinesUncached(db: Db, k: Keys, r: RideId, actor: Actor, inputs: seq<Input>)
    requires Coherent(db, k)
    ensures var t := RunAlone(Solo(db, k, Getting(ReadCached(r, actor))), inputs);
      && t.db == db && Coherent(db, t.keys) && Reading(db, r, actor, t.proc)
      && (t.proc.Done? ==> SameOutcome(t.proc.outcome, UncachedGet(db, r, actor)))
  {
    if inputs != [] {
      var n := |inputs| - 1;
      var t := RunAlone(Solo(db, k, Getting(ReadCached(r, actor))), inputs[..n]);
      GetRefinesUncached(db, k, r, actor, inputs[..n]);
      if t.proc.Getting? {
        ReadingStep(db, t.keys, r, actor, t.proc.get);
      }
    }
  }

  lemma ReadingStep(db: Db, k: Keys, r: RideId, actor: Actor, pc: GetPc)
    requires Coherent(db, k) && Reading(db, r, actor, Getting(pc))
    ensures var a := GetStep(db, k, pc); Coherent(db, a.keys) && Reading(db, r, actor, a.next)
  {
  }

  // ---- healing ----

  /** Past its commit, a change of availability only has keys left to write. */
  predicate Restoring(p: Proc) {
    p == FINISHED || (p.Toggling? && !p.availability.CommitAvailability?)
  }

  lemma RestoringStep(db: Db, k: Keys, p: Proc, i: Input)
    requires Restoring(p)
    ensures Restoring(Step(db, k, p, i).next)
  {
  }

  lemma HealingExact(db: Db, k: Keys, tx: Tx)
    requires tx.SetAvailability? && Ok(db, tx) && Exact(db, k, Lag({tx.d}, {}))
    ensures Exact(Apply(db, tx), k, Lag({tx.d}, {}))
  {
  }

  lemma HealingCommit(db: Db, k: Keys, d: DriverId, available: bool)
    requires Sound(db, {d}) && d in db.drivers && !Busy(db, d) && Exact(db, k, Lag({d}, {}))
    ensures var a := ToggleStep(db, k, CommitAvailability(d, available));
      && a.tx.Some? && Inv(Apply(db, a.tx.value)) && Restoring(a.next) && InStep(Apply(db, a.tx.value), k, a.next)
  {
    hide Sound, Inv, Busy, Exact;
    var tx := SetAvailability(d, available);
    SetAvailabilityHeals(db, tx);
    HealingExact(db, k, tx);
  }

  /** A driver left on trip without an active ride, whatever that driver's own mirror,
      marker and pool entries hold: one call to go online or offline cannot be refused and,
      when it is done, everything is in step again. */
  lemma {:induction false} ToggleHeals(db: Db, k: Keys, d: DriverId, available: bool, inputs: seq<Input>)
    requires Sound(db, {d}) && d in db.drivers && !Busy(db, d) && Exact(db, k, Lag({d}, {}))
    ensures var t := RunAlone(Solo(db, k, Toggling(CommitAvailability(d, available))), inputs);
      t.proc.Done? ==> t.proc == FINISHED && Inv(t.db) && Coherent(t.db, t.keys)
  {
    if inputs != [] { HealingStays(db, k, d, available, inputs); }
    hide Inv, Exact;
  }

  lemma {:induction false} HealingStays(db: Db, k: Keys, d: DriverId, available: bool, inputs: seq<Input>)
    requires Sound(db, {d}) && d in db.drivers && !Busy(db, d) && Exact(db, k, Lag({d}, {})) && inputs != []
    ensures var t := RunAlone(Solo(db, k, Toggling(CommitAvailability(d, available))), inputs); Steady(t) && Restoring(t.proc)
  {
    hide Sound, Inv, Busy, Exact, Justified, Apply, Ok;
    var n := |inputs| - 1;
    var t := RunAlone(Solo(db, k, Toggling(CommitAvailability(d, available))), inputs[..n]);
    if n == 0 {
      HealingCommit(db, k, d, available);
    } else {
      HealingStays(db, k, d, available, inputs[..n]);
      SteadyStep(t, inputs[n]);
      RestoringStep(t.db, t.keys, t.proc, inputs[n]);
    }
  }

}
