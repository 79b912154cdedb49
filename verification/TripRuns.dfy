/** Trips over whole runs of requests that do not overlap, on one clock that never goes
    back: the key of a pause is there exactly while the trip is paused, and every trip that
    ended was charged within n + 1 seconds of the time it was not paused. */
module TripRuns {
  import opened Prelude
  import opened RideStates
  import opened TripClock
  import opened Ledger
  import opened LedgerInvariants
  import opened LedgerTheorems
  import opened Redis
  import opened Protocol
  import opened ProtocolSafety
  import opened Coherence
  import opened CoherentRuns
  import opened TripService

  /** What really happened: the journeys, and when those that are over ended. */
  datatype History = History(journeys: map<RideId, Journey>, ends: map<RideId, Instant>)

  /** The seconds an ended trip's row was priced at are fair to its journey. */
  predicate Fair(trip: Trip, j: Journey, ended: Instant) {
    trip.endedAt.Some? && ChargedFairly(j, ended, ChargedSeconds(trip.startedAt, trip.endedAt.value, trip.pausedSeconds))
  }

  ghost predicate AllFair(trips: map<RideId, Trip>, h: History) {
    forall r | r in trips && trips[r].status == Ended ::
      r in h.journeys && r in h.ends && Fair(trips[r], h.journeys[r], h.ends[r])
  }

  ghost predicate Kept(trips: map<RideId, Trip>, pausedAt: map<RideId, PausedAt>, h: History) {
    Tracked(trips, pausedAt, h.journeys) && AllFair(trips, h)
  }

  // ---- what a request adds ----

  function Added(p: Proc, now: Instant, h: History): History {
    match p
    case Starting(LoadStart(_, r, _)) => h.(journeys := h.journeys[r := Journey(now, [], None)])
    case Pausing(LoadPause(_, r)) =>
      if r in h.journeys then h.(journeys := h.journeys[r := h.journeys[r].(since := Some(now))]) else h
    case Resuming(LoadResume(_, r)) =>
      if r in h.journeys then h.(journeys := h.journeys[r := h.journeys[r].Resumed(now)]) else h
    case Ending(LoadEnding(_, r)) => Over(h, r, now)
    case _ => h
  }

  function Over(h: History, r: RideId, now: Instant): History {
    h.(ends := h.ends[r := now])
  }

  function CallAdds(s: CoherentRuns.Stores, c: Call, now: Instant, h: History): History {
    if c.Request? && RunAlone(Solo(s.db, s.keys, c.p), c.inputs).proc == FINISHED then Added(c.p, now, h) else h
  }

  function HistoryOf(s: CoherentRuns.Stores, calls: seq<Call>, times: seq<Instant>): History
    requires |times| == |calls|
  {
    if calls == [] then History(map[], map[])
    else
      var n := |calls| - 1;
      CallAdds(ServeAll(s, calls[..n]), calls[n], times[n], HistoryOf(s, calls[..n], times[..n]))
  }

  predicate ReadAt(inputs: seq<Input>, now: Instant) {
    forall i | i in inputs :: i.now == now
  }

  /** The call reads its clock at `now`, an ending's payment has a new id, and a pause's key
      is left to its own expiry. */
  predicate CallAt(s: CoherentRuns.Stores, c: Call, now: Instant) {
    match c
    case Request(p, inputs) => ReadAt(inputs, now) && (p.Ending? ==> forall i | i in inputs :: i.newId !in s.db.payments)
    case Quoting(_, _) => true
    case Expire(keys) => keys.pausedAt == s.keys.pausedAt
  }

  predicate OnClock(s: CoherentRuns.Stores, calls: seq<Call>, times: seq<Instant>)
    requires |times| == |calls|
  {
    calls == [] ||
    var n := |calls| - 1;
    && OnClock(s, calls[..n], times[..n]) && (n > 0 ==> times[n - 1] <= times[n])
    && CallAt(ServeAll(s, calls[..n]), calls[n], times[n])
  }

  // ---- the four requests, step by step ----

  ghost predicate Keeps(t: Solo, h: History) {
    Kept(t.db.trips, t.keys.pausedAt, h)
  }

  ghost predicate DoneWith(t: Solo, h: History, h': History) {
    if t.proc == FINISHED then Keeps(t, h') else t.proc == REJECTED && Keeps(t, h)
  }

  ghost predicate StartAlong(t: Solo, r: RideId, h: History, h': History) {
    match t.proc
    case Starting(LoadStart(_, r', _)) => r' == r && Keeps(t, h)
    case Starting(CommitStart(_, r')) => r' == r && Keeps(t, h)
    case Starting(_) => Keeps(t, h')
    case _ => DoneWith(t, h, h')
  }

  predicate Driving(h: History, r: RideId) {
    r in h.journeys && h.journeys[r].since.None?
  }

  ghost predicate PauseAlong(t: Solo, r: RideId, h: History, h': History) {
    match t.proc
    case Pausing(LoadPause(_, r')) => r' == r && Keeps(t, h)
    case Pausing(CommitPause(_, r')) => r' == r && Keeps(t, h)
    case Pausing(MarkPaused(r')) =>
      r' == r && r in t.db.trips && t.db.trips[r].status == Paused && Driving(h, r)
      && Kept(t.db.trips[r := t.db.trips[r].(status := Started)], t.keys.pausedAt, h)
    case _ => DoneWith(t, h, h') && (t.proc == FINISHED ==> Driving(h, r))
  }

  ghost predicate ResumeAlong(t: Solo, r: RideId, h: History, h': History) {
    match t.proc
    case Resuming(LoadResume(_, r')) => r' == r && Keeps(t, h)
    case Resuming(TakePause(_, r')) => r' == r && Keeps(t, h)
    case Resuming(CommitResume(_, r', elapsed)) =>
      r' == r &&
      if r in t.db.trips && t.db.trips[r].status == Paused
      then Kept(t.db.trips[r := t.db.trips[r].(status := Started, pausedSeconds := t.db.trips[r].pausedSeconds + elapsed)],
                t.keys.pausedAt, h')
      else Keeps(t, h)
    case _ => DoneWith(t, h, h')
  }

  /** The times of a bill are those of the journey, were it to end now; its key is gone. */
  ghost predicate Timed(t: Solo, b: Bill, r: RideId, h: History, now: Instant) {
    && b.r == r && r in h.journeys && r in t.db.trips
    && b.startedAt == t.db.trips[r].startedAt == Column(h.journeys[r].began)
    && b.pausedSeconds == FoldedSeconds(h.journeys[r].PausesAt(now))
    && Kept(t.db.trips - {r}, t.keys.pausedAt, h)
  }

  /** The ride read is under way, with a trip that has not ended. */
  predicate Riding(db: Db, r: RideId, b: Bill) {
    && HasStatus(db, r, InProgress) && b.r == r && b.q == db.rides[r].quote
    && r in db.trips && db.trips[r].status != Ended
  }

  ghost predicate EndAlong(db: Db, t: Solo, r: RideId, h: History, now: Instant) {
    match t.proc
    case Ending(LoadEnding(_, r')) => t.db == db && r' == r && Keeps(t, h)
    case Ending(LoadTrip(b)) =>
      t.db == db && HasStatus(db, r, InProgress) && b.r == r && b.q == db.rides[r].quote && Keeps(t, h)
    case Ending(FoldPause(b)) =>
      && t.db == db && Riding(db, r, b) && Keeps(t, h) && db.trips[r].status == Paused
      && b.startedAt == db.trips[r].startedAt && b.pausedSeconds == db.trips[r].pausedSeconds
    case Ending(LoadPrice(b)) => t.db == db && Riding(db, r, b) && Timed(t, b, r, h, now)
    case Ending(pc) => t.db == db && Riding(db, r, pc.b) && Timed(t, pc.b, r, h, now) && pc.b.endedAt == now
    case Releasing(_, after) => after == Uncaching(r, FINISHED) && Keeps(t, Over(h, r, now))
    case Uncaching(_, after) => after == FINISHED && Keeps(t, Over(h, r, now))
    case _ => DoneWith(t, h, Over(h, r, now))
  }

  /** A change to a trip that has not ended leaves those that have fair. */
  lemma FairStays(trips: map<RideId, Trip>, h: History, r: RideId, row: Trip, j: Journey)
    requires AllFair(trips, h) && row.status != Ended
    ensures AllFair(trips[r := row], h.(journeys := h.journeys[r := j]))
  {
    hide Fair;
  }

  lemma StartKept(trips: map<RideId, Trip>, k: Keys, h: History, d: DriverId, r: RideId, otp: string, now: Instant)
    requires Kept(trips, k.pausedAt, h) && r !in trips
    ensures Kept(trips[r := Trip(Started, Column(now), None, 0, None, None)], k.pausedAt,
                 Added(Starting(LoadStart(d, r, otp)), now, h))
  {
    StartTracked(trips, k, h.journeys, r, now);
    hide Tracked, AllFair;
    FairStays(trips, h, r, Trip(Started, Column(now), None, 0, None, None), Journey(now, [], None));
  }

  lemma PauseKept(trips: map<RideId, Trip>, k: Keys, h: History, d: DriverId, r: RideId, now: Instant)
    requires Kept(trips, k.pausedAt, h) && r in trips && trips[r].status == Started
    ensures Kept(trips[r := trips[r].(status := Paused)], SetPausedAt(k, r, now).pausedAt, Added(Pausing(LoadPause(d, r)), now, h))
  {
    PauseTracked(trips, k, h.journeys, r, now);
    hide Tracked, AllFair;
    FairStays(trips, h, r, trips[r].(status := Paused), h.journeys[r].(since := Some(now)));
  }

  lemma ResumeKept(trips: map<RideId, Trip>, k: Keys, h: History, d: DriverId, r: RideId, now: Instant)
    requires Kept(trips, k.pausedAt, h) && r in trips && trips[r].status == Paused
    ensures Kept(trips[r := trips[r].(status := Started, pausedSeconds := trips[r].pausedSeconds + Elapsed(k, r, now))],
                 TakePausedAt(k, r).pausedAt, Added(Resuming(LoadResume(d, r)), now, h))
  {
    hide Tracked, AllFair, Elapsed, Journey.Resumed;
    ResumeTracked(trips, k, h.journeys, r, now);
    FairStays(trips, h, r, trips[r].(status := Started, pausedSeconds := trips[r].pausedSeconds + Elapsed(k, r, now)),
              h.journeys[r].Resumed(now));
  }

  lemma StartGoesOn(t: Solo, i: Input, d: DriverId, r: RideId, otp: string, h: History, now: Instant)
    requires i.now == now && StartAlong(t, r, h, Added(Starting(LoadStart(d, r, otp)), now, h))
    ensures StartAlong(StepAlone(t, i), r, h, Added(Starting(LoadStart(d, r, otp)), now, h))
  {
    hide Kept, Added, MayStart;
    match t.proc
    case Starting(CommitStart(_, _)) =>
      if Ok(t.db, StartTrip(r, now)) { StartKept(t.db.trips, t.keys, h, d, r, otp, now); }
    case _ => hide Ok;
  }

  lemma StartedDrives(t: Solo, r: RideId, h: History)
    requires Keeps(t, h) && r in t.db.trips && t.db.trips[r].status == Started
    ensures Driving(h, r)
  {
  }

  lemma PauseGoesOn(t: Solo, i: Input, d: DriverId, r: RideId, h: History, now: Instant)
    requires i.now == now && PauseAlong(t, r, h, Added(Pausing(LoadPause(d, r)), now, h))
    ensures PauseAlong(StepAlone(t, i), r, h, Added(Pausing(LoadPause(d, r)), now, h))
  {
    hide Kept, Added;
    match t.proc
    case Pausing(CommitPause(_, _)) =>
      if Ok(t.db, PauseTrip(r)) {
        assert t.db.trips[r := t.db.trips[r].(status := Paused)][r := t.db.trips[r]] == t.db.trips;
        assert Driving(h, r) by { StartedDrives(t, r, h); }
      }
    case Pausing(MarkPaused(_)) =>
      var trips := t.db.trips[r := t.db.trips[r].(status := Started)];
      PauseKept(trips, t.keys, h, d, r, now);
      assert trips[r := trips[r].(status := Paused)] == t.db.trips;
    case _ =>
  }

  lemma ResumeTakes(t: Solo, i: Input, d: DriverId, r: RideId, h: History)
    requires t.proc == Resuming(TakePause(d, r)) && Keeps(t, h)
    ensures ResumeAlong(StepAlone(t, i), r, h, Added(Resuming(LoadResume(d, r)), i.now, h))
  {
    hide Added, Elapsed, Kept, Ok;
    if r in t.db.trips && t.db.trips[r].status == Paused {
      ResumeKept(t.db.trips, t.keys, h, d, r, i.now);
    } else {
      assert Tracked(t.db.trips, t.keys.pausedAt, h.journeys) by { KeptIsTracked(t, h); }
      hide Tracked;
      OnlyPausedHaveKeys(t.db.trips, t.keys, h.journeys, r);
    }
  }

  lemma KeptIsTracked(t: Solo, h: History)
    requires Keeps(t, h)
    ensures Tracked(t.db.trips, t.keys.pausedAt, h.journeys)
  {
    hide Tracked;
  }

  /** Whichever driver the step is taken for. */
  lemma SameAdded(d: DriverId, d': DriverId, r: RideId, now: Instant, h: History)
    ensures Added(Resuming(LoadResume(d, r)), now, h) == Added(Resuming(LoadResume(d', r)), now, h)
  {
  }

  lemma ResumeGoesOn(t: Solo, i: Input, d: DriverId, r: RideId, h: History, now: Instant)
    requires i.now == now && ResumeAlong(t, r, h, Added(Resuming(LoadResume(d, r)), now, h))
    ensures ResumeAlong(StepAlone(t, i), r, h, Added(Resuming(LoadResume(d, r)), now, h))
  {
    hide Added, Elapsed, Kept;
    match t.proc
    case Resuming(TakePause(d', _)) =>
      hide ResumeAlong, StepAlone;
      assert Keeps(t, h) by { TakeKeeps(t, r, h, Added(Resuming(LoadResume(d, r)), now, h)); }
      SameAdded(d, d', r, now, h);
      ResumeTakes(t, i, d', r, h);
    case _ =>
  }

  lemma TakeKeeps(t: Solo, r: RideId, h: History, h': History)
    requires ResumeAlong(t, r, h, h') && t.proc.Resuming? && t.proc.resume.TakePause?
    ensures Keeps(t, h) && t.proc.resume.r == r
  {
    hide Kept;
  }

  // ---- ending ----

  lemma PauseFolded(t: Solo, b: Bill, r: RideId, h: History, now: Instant)
    requires Riding(t.db, r, b) && Keeps(t, h) && b.startedAt == t.db.trips[r].startedAt
    requires b.pausedSeconds == t.db.trips[r].pausedSeconds + if t.db.trips[r].status == Paused then Elapsed(t.keys, r, now) else 0
    ensures Timed(t.(keys := TakePausedAt(t.keys, r)), b, r, h, now)
    ensures t.db.trips[r].status != Paused ==> TakePausedAt(t.keys, r) == t.keys
  {
    PauseIsWorth(t.db.trips, t.keys, h.journeys, r, now);
    if t.db.trips[r].status != Paused { OnlyPausedHaveKeys(t.db.trips, t.keys, h.journeys, r); }
    OthersTracked(t.db.trips, t.keys.pausedAt, h.journeys, r);
    hide Tracked, Fair, Elapsed, FoldedSeconds;
  }

  lemma OthersTracked(trips: map<RideId, Trip>, pausedAt: map<RideId, PausedAt>, journeys: map<RideId, Journey>, r: RideId)
    requires Tracked(trips, pausedAt, journeys)
    ensures Tracked(trips - {r}, pausedAt - {r}, journeys)
  {
    hide Remembers;
  }

  lemma BilledFairly(b: Bill, j: Journey, now: Instant, row: Trip)
    requires ChargedFairly(j, now, Charge(j.began, j.PausesAt(now), now))
    requires row.startedAt == Column(j.began) && row.endedAt == Some(Column(now))
    requires row.pausedSeconds == FoldedSeconds(j.PausesAt(now))
    ensures Fair(row, j, now)
  {
    hide ChargedFairly, FoldedSeconds;
    assert Column(Column(j.began)) == Column(j.began);
    StoringKeepsCharge(row.startedAt, now, row.pausedSeconds);
    hide Column, ChargedSeconds;
  }

  lemma EndKept(t: Solo, b: Bill, r: RideId, h: History, now: Instant, row: Trip)
    requires Riding(t.db, r, b) && Timed(t, b, r, h, now) && AllOrdered(h.journeys, now)
    requires row.status == Ended && row.startedAt == t.db.trips[r].startedAt
    requires row.endedAt == Some(Column(now)) && row.pausedSeconds == b.pausedSeconds
    ensures Kept(t.db.trips[r := row], t.keys.pausedAt, Over(h, r, now))
  {
    hide Tracked, Fair, ChargedFairly, AllOrdered, Column, FoldedSeconds, Charge;
    FairCharge(h.journeys, r, now);
    BilledFairly(b, h.journeys[r], now, row);
    EndedTracked(t.db.trips, t.keys.pausedAt, h.journeys, r, row);
  }

  lemma EndedTracked(trips: map<RideId, Trip>, pausedAt: map<RideId, PausedAt>, journeys: map<RideId, Journey>, r: RideId, row: Trip)
    requires Tracked(trips - {r}, pausedAt, journeys) && row.status == Ended
    ensures Tracked(trips[r := row], pausedAt, journeys)
  {
    hide Remembers;
  }

  /** A trip row as the request takes it down. */
  function TakenDown(db: Db, r: RideId, b: Bill): Bill
    requires r in db.trips
  {
    b.(startedAt := db.trips[r].startedAt, pausedSeconds := db.trips[r].pausedSeconds)
  }

  lemma LoadTripStep(db: Db, k: Keys, b: Bill, i: Input)
    ensures EndStep(db, k, LoadTrip(b), i) == Look(k,
      if b.r !in db.trips then REJECTED
      else if db.trips[b.r].status == Paused then Ending(FoldPause(TakenDown(db, b.r, b)))
      else Ending(LoadPrice(TakenDown(db, b.r, b))))
  {
  }

  lemma TripLoads(db: Db, t: Solo, i: Input, b: Bill, r: RideId, h: History, now: Instant)
    requires Inv(db) && i.now == now && t.proc == Ending(LoadTrip(b)) && EndAlong(db, t, r, h, now)
    ensures EndAlong(db, StepAlone(t, i), r, h, now)
  {
    hide Inv, EndStep, StepAlone, Kept, Timed, Elapsed;
    EndingAlone(t, LoadTrip(b), i);
    LoadTripStep(t.db, t.keys, b, i);
    if r in db.trips {
      NotEnded(db, r);
      var b' := TakenDown(db, r, b);
      if db.trips[r].status != Paused {
        DrivingIsTimed(t, b', r, h, now);
        assert StepAlone(t, i) == t.(proc := Ending(LoadPrice(b')));
      }
    }
  }

  lemma NotEnded(db: Db, r: RideId)
    requires Inv(db) && HasStatus(db, r, InProgress) && r in db.trips
    ensures db.trips[r].status != Ended
  {
    TripInLockstep(db, r);
  }

  /** With no pause in flight the stored seconds are all there is. */
  lemma DrivingIsTimed(t: Solo, b: Bill, r: RideId, h: History, now: Instant)
    requires Riding(t.db, r, b) && Keeps(t, h) && b.startedAt == t.db.trips[r].startedAt
    requires t.db.trips[r].status != Paused && b.pausedSeconds == t.db.trips[r].pausedSeconds
    ensures Timed(t.(proc := Ending(LoadPrice(b))), b, r, h, now)
  {
    hide Kept, Timed, Elapsed;
    PauseFolded(t, b, r, h, now);
    TimedSame(t.(keys := TakePausedAt(t.keys, r)), t.(proc := Ending(LoadPrice(b))), b, r, h, now);
  }

  lemma TimedSame(t: Solo, u: Solo, b: Bill, r: RideId, h: History, now: Instant)
    requires Timed(t, b, r, h, now) && u.db == t.db && u.keys.pausedAt == t.keys.pausedAt
    ensures Timed(u, b, r, h, now)
    ensures forall e, s, m :: Timed(u, b.(endedAt := e, surgeX100 := s, distanceM := m), r, h, now)
    ensures forall m :: Timed(u, b.(distanceM := m), r, h, now)
  {
    hide Kept;
  }

  lemma PauseFolds(db: Db, t: Solo, i: Input, b: Bill, r: RideId, h: History, now: Instant)
    requires i.now == now && t.proc == Ending(FoldPause(b)) && EndAlong(db, t, r, h, now)
    ensures EndAlong(db, StepAlone(t, i), r, h, now)
  {
    hide Kept, Timed, Elapsed;
    var b' := b.(pausedSeconds := b.pausedSeconds + Elapsed(t.keys, r, now));
    PauseFolded(t, b', r, h, now);
    TimedSame(t.(keys := TakePausedAt(t.keys, r)), StepAlone(t, i), b', r, h, now);
  }

  lemma PriceLoads(db: Db, t: Solo, i: Input, b: Bill, r: RideId, h: History, now: Instant)
    requires Inv(db) && i.now == now && t.proc == Ending(LoadPrice(b)) && EndAlong(db, t, r, h, now)
    ensures EndAlong(db, StepAlone(t, i), r, h, now)
  {
    hide Inv, Timed, StepAlone;
    QuoteOnFile(db, r);
    EndingAlone(t, LoadPrice(b), i);
    TimedSame(t, StepAlone(t, i), b, r, h, now);
  }

  lemma DistanceLoads(db: Db, t: Solo, i: Input, b: Bill, r: RideId, h: History, now: Instant)
    requires t.proc == Ending(ReadDist(b)) || t.proc == Ending(ClearEndDist(b))
    requires EndAlong(db, t, r, h, now)
    ensures EndAlong(db, StepAlone(t, i), r, h, now)
  {
    EndingAlone(t, t.proc.end, i);
    hide Timed, MeteredDistance, StepAlone;
    TimedSame(t, StepAlone(t, i), b, r, h, now);
  }

  lemma EndCommits(db: Db, t: Solo, i: Input, b: Bill, r: RideId, h: History, now: Instant)
    requires i.newId !in db.payments && AllOrdered(h.journeys, now)
    requires t.proc == Ending(CommitEnd(b)) && EndAlong(db, t, r, h, now)
    ensures EndAlong(db, StepAlone(t, i), r, h, now)
  {
    hide Timed, Kept, FareOf, AllOrdered, Column;
    var tx := EndTrip(b.r, b.d, i.newId, b.payBy, b.endedAt, b.pausedSeconds, b.distanceM, FareOf(b));
    assert Ok(db, tx);
    var row := Apply(db, tx).trips[r];
    assert Apply(db, tx).trips == db.trips[r := row];
    EndKept(t, b, r, h, now, row);
    hide Apply;
  }

  lemma EndReleases(db: Db, t: Solo, i: Input, pc: ReleasePc, r: RideId, h: History, now: Instant)
    requires t.proc == Releasing(pc, Uncaching(r, FINISHED)) && EndAlong(db, t, r, h, now)
    ensures EndAlong(db, StepAlone(t, i), r, h, now)
  {
    ReleasingAlone(t, pc, Uncaching(r, FINISHED), i);
    hide Kept, StepAlone;
  }

  lemma ReleasingAlone(t: Solo, pc: ReleasePc, after: Proc, i: Input)
    requires t.proc == Releasing(pc, after)
    ensures var u := StepAlone(t, i);
      && u.db == t.db && u.keys.pausedAt == t.keys.pausedAt
      && (u.proc == after || (u.proc.Releasing? && u.proc.after == after))
  {
  }

  lemma EndUncaches(db: Db, t: Solo, i: Input, r: RideId, h: History, now: Instant)
    requires t.proc.Uncaching? && EndAlong(db, t, r, h, now)
    ensures EndAlong(db, StepAlone(t, i), r, h, now)
  {
    hide Kept;
  }

  lemma EndGoesOn(db: Db, t: Solo, i: Input, r: RideId, h: History, now: Instant)
    requires Inv(db) && i.now == now && i.newId !in db.payments && AllOrdered(h.journeys, now)
    requires EndAlong(db, t, r, h, now)
    ensures EndAlong(db, StepAlone(t, i), r, h, now)
  {
    hide StepAlone, Inv, Kept, Timed, AllOrdered;
    match t.proc
    case Ending(LoadEnding(d, _)) => EndBegins(db, t, i, d, r, h, now);
    case Ending(LoadTrip(b)) => TripLoads(db, t, i, b, r, h, now);
    case Ending(FoldPause(b)) => PauseFolds(db, t, i, b, r, h, now);
    case Ending(LoadPrice(b)) => PriceLoads(db, t, i, b, r, h, now);
    case Ending(ReadDist(b)) => DistanceLoads(db, t, i, b, r, h, now);
    case Ending(ClearEndDist(b)) => DistanceLoads(db, t, i, b, r, h, now);
    case Ending(CommitEnd(b)) => EndCommits(db, t, i, b, r, h, now);
    case Releasing(pc, _) => EndReleases(db, t, i, pc, r, h, now);
    case Uncaching(_, _) => EndUncaches(db, t, i, r, h, now);
    case _ => DoneStays(t, i);
  }

  lemma EndBegins(db: Db, t: Solo, i: Input, d: DriverId, r: RideId, h: History, now: Instant)
    requires t.proc == Ending(LoadEnding(d, r)) && EndAlong(db, t, r, h, now)
    ensures EndAlong(db, StepAlone(t, i), r, h, now)
  {
    hide Kept;
  }

  lemma DoneStays(t: Solo, i: Input)
    requires t.proc.Done?
    ensures StepAlone(t, i) == t
  {
  }

  // ---- one request, then any number ----

  lemma {:induction false} StartRuns(s: Solo, inputs: seq<Input>, d: DriverId, r: RideId, otp: string, h: History, now: Instant)
    requires s.proc == Starting(LoadStart(d, r, otp)) && Keeps(s, h) && ReadAt(inputs, now)
    ensures StartAlong(RunAlone(s, inputs), r, h, Added(s.proc, now, h))
  {
    hide Keeps, Added;
    if inputs != [] {
      var n := |inputs| - 1;
      StartRuns(s, inputs[..n], d, r, otp, h, now);
      hide StartAlong, StepAlone;
      StartGoesOn(RunAlone(s, inputs[..n]), inputs[n], d, r, otp, h, now);
    }
  }

  lemma {:induction false} PauseRuns(s: Solo, inputs: seq<Input>, d: DriverId, r: RideId, h: History, now: Instant)
    requires s.proc == Pausing(LoadPause(d, r)) && Keeps(s, h) && ReadAt(inputs, now)
    ensures PauseAlong(RunAlone(s, inputs), r, h, Added(s.proc, now, h))
  {
    hide Keeps, Added;
    if inputs != [] {
      var n := |inputs| - 1;
      PauseRuns(s, inputs[..n], d, r, h, now);
      hide PauseAlong, StepAlone;
      PauseGoesOn(RunAlone(s, inputs[..n]), inputs[n], d, r, h, now);
    }
  }

  lemma {:induction false} ResumeRuns(s: Solo, inputs: seq<Input>, d: DriverId, r: RideId, h: History, now: Instant)
    requires s.proc == Resuming(LoadResume(d, r)) && Keeps(s, h) && ReadAt(inputs, now)
    ensures ResumeAlong(RunAlone(s, inputs), r, h, Added(s.proc, now, h))
  {
    hide Keeps, Added;
    if inputs != [] {
      var n := |inputs| - 1;
      ResumeRuns(s, inputs[..n], d, r, h, now);
      hide ResumeAlong, StepAlone;
      ResumeGoesOn(RunAlone(s, inputs[..n]), inputs[n], d, r, h, now);
    }
  }

  lemma {:induction false} EndRuns(s: Solo, inputs: seq<Input>, d: DriverId, r: RideId, h: History, now: Instant)
    requires s.proc == Ending(LoadEnding(d, r)) && Keeps(s, h) && ReadAt(inputs, now)
    requires Inv(s.db) && AllOrdered(h.journeys, now) && forall i | i in inputs :: i.newId !in s.db.payments
    ensures EndAlong(s.db, RunAlone(s, inputs), r, h, now)
  {
    hide Inv, Keeps, AllOrdered;
    if inputs != [] {
      var n := |inputs| - 1;
      EndRuns(s, inputs[..n], d, r, h, now);
      hide EndAlong, StepAlone;
      EndGoesOn(s.db, RunAlone(s, inputs[..n]), inputs[n], r, h, now);
    }
  }

  /** A trip request that has run alone until it is done leaves a history kept. */
  lemma RequestKeeps(s: Solo, inputs: seq<Input>, h: History, now: Instant)
    requires Entry(s.proc) && Keeps(s, h) && ReadAt(inputs, now) && RunAlone(s, inputs).proc.Done?
    requires Inv(s.db) && AllOrdered(h.journeys, now)
    requires s.proc.Ending? ==> forall i | i in inputs :: i.newId !in s.db.payments
    ensures var t := RunAlone(s, inputs);
      var h' := if t.proc == FINISHED then Added(s.proc, now, h) else h;
      Keeps(t, h') && AllOrdered(h'.journeys, now)
  {
    hide Inv, Kept, AllOrdered, RunAlone;
    match s.proc
    case Starting(pc) =>
      StartRuns(s, inputs, pc.d, pc.r, pc.otp, h, now);
      ClockKeepsOrder(h.journeys, now, pc.r, now);
    case Pausing(pc) =>
      PauseRuns(s, inputs, pc.d, pc.r, h, now);
      ClockKeepsOrder(h.journeys, now, pc.r, now);
    case Resuming(pc) =>
      ResumeRuns(s, inputs, pc.d, pc.r, h, now);
      ClockKeepsOrder(h.journeys, now, pc.r, now);
    case Ending(pc) => EndRuns(s, inputs, pc.d, pc.r, h, now);
    case _ => OthersLeaveTrips(s, inputs);
  }

  lemma CallKeeps(s: CoherentRuns.Stores, c: Call, h: History, now: Instant)
    requires Inv(s.db) && Served(s, c) && CallAt(s, c, now)
    requires Kept(s.db.trips, s.keys.pausedAt, h) && AllOrdered(h.journeys, now)
    ensures var s', h' := Serve(s, c), CallAdds(s, c, now, h);
      Kept(s'.db.trips, s'.keys.pausedAt, h') && AllOrdered(h'.journeys, now)
  {
    hide Inv, Kept, AllOrdered, RunAlone, Added, Apply, Entry, CoherentRuns.Expired;
    match c
    case Request(p, inputs) => RequestKeeps(Solo(s.db, s.keys, p), inputs, h, now);
    case Quoting(q, quote) => SparedTrips(s.db, InsertQuote(q, quote));
    case Expire(_) =>
  }

  lemma OrderStays(journeys: map<RideId, Journey>, t: Instant, now: Instant)
    requires AllOrdered(journeys, t) && t <= now
    ensures AllOrdered(journeys, now)
  {
    forall r | r in journeys ensures Ordered(journeys[r], now) { OrderLasts(journeys[r], t, now); }
  }

  /** The last call of a run. */
  lemma LastCall(s: CoherentRuns.Stores, calls: seq<Call>, times: seq<Instant>)
    requires calls != [] && |times| == |calls| && OneByOne(s, calls) && OnClock(s, calls, times)
    ensures var n := |calls| - 1;
      var before := ServeAll(s, calls[..n]);
      && OneByOne(s, calls[..n]) && OnClock(s, calls[..n], times[..n])
      && Served(before, calls[n]) && CallAt(before, calls[n], times[n]) && (n > 0 ==> times[n - 1] <= times[n])
      && ServeAll(s, calls) == Serve(before, calls[n])
      && HistoryOf(s, calls, times) == CallAdds(before, calls[n], times[n], HistoryOf(s, calls[..n], times[..n]))
  {
    hide Serve, Served, CallAt, CallAdds;
  }

  /** The journeys are in order up to the last reading of the clock. */
  ghost predicate OrderedTo(journeys: map<RideId, Journey>, times: seq<Instant>) {
    if times == [] then journeys == map[] else AllOrdered(journeys, times[|times| - 1])
  }

  lemma OrderedNext(journeys: map<RideId, Journey>, times: seq<Instant>)
    requires times != [] && OrderedTo(journeys, times[..|times| - 1])
    requires |times| > 1 ==> times[|times| - 2] <= times[|times| - 1]
    ensures OrderedTo(journeys, times)
  {
    if |times| > 1 { OrderStays(journeys, times[|times| - 2], times[|times| - 1]); }
  }

  lemma {:induction false} CallsKeep(s: CoherentRuns.Stores, calls: seq<Call>, times: seq<Instant>)
    requires Inv(s.db) && Coherent(s.db, s.keys) && s.db.trips == map[] && s.keys.pausedAt == map[]
    requires |times| == |calls| && OneByOne(s, calls) && OnClock(s, calls, times)
    ensures var s', h := ServeAll(s, calls), HistoryOf(s, calls, times);
      Kept(s'.db.trips, s'.keys.pausedAt, h) && OrderedTo(h.journeys, times)
  {
    hide Inv, Coherent, AllOrdered, Serve, Served, CallAdds, CallAt, OneByOne, OnClock;
    if calls != [] {
      LastCall(s, calls, times);
      hide Kept, ServeAll, HistoryOf;
      var n := |calls| - 1;
      var h := HistoryOf(s, calls[..n], times[..n]);
      CallsKeep(s, calls[..n], times[..n]);
      OneByOneCoherent(s, calls[..n]);
      OrderedNext(h.journeys, times);
      CallKeeps(ServeAll(s, calls[..n]), calls[n], h, times[n]);
    }
  }

  lemma KeptMeans(trips: map<RideId, Trip>, pausedAt: map<RideId, PausedAt>, h: History)
    requires Kept(trips, pausedAt, h)
    ensures forall r :: r in pausedAt <==> r in trips && trips[r].status == Paused
    ensures forall r | r in trips && trips[r].status == Ended ::
      r in h.journeys && r in h.ends && Fair(trips[r], h.journeys[r], h.ends[r])
  {
    hide Fair;
  }

  /** From a database without rides, over any requests that do not overlap, each reading a
      clock that never goes back: a pause has a key exactly while its trip is paused, and
      every trip that ended was priced, from its stored times, within n + 1 seconds of the
      time its journey was not paused. */
  lemma PausesAndCharges(db: Db, calls: seq<Call>, times: seq<Instant>)
    requires Fresh(db) && |times| == |calls|
    requires var s := CoherentRuns.Stores(db, FLUSHED); OneByOne(s, calls) && OnClock(s, calls, times)
    ensures var s, h := ServeAll(CoherentRuns.Stores(db, FLUSHED), calls), HistoryOf(CoherentRuns.Stores(db, FLUSHED), calls, times);
      && (forall r :: r in s.keys.pausedAt <==> r in s.db.trips && s.db.trips[r].status == Paused)
      && (forall r | r in s.db.trips && s.db.trips[r].status == Ended ::
            r in h.journeys && r in h.ends && Fair(s.db.trips[r], h.journeys[r], h.ends[r]))
  {
    hide Inv, Coherent, OneByOne, OnClock, ServeAll, HistoryOf, Kept, AllOrdered, Fair;
    var s := CoherentRuns.Stores(db, FLUSHED);
    FreshCoherent(db);
    CallsKeep(s, calls, times);
    KeptMeans(ServeAll(s, calls).db.trips, ServeAll(s, calls).keys.pausedAt, HistoryOf(s, calls, times));
  }

}
