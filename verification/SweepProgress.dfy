/** The sweeper makes progress: fifty overdue rides a sweep, oldest first. */
module SweepProgress {
  import opened Prelude
  import opened RideStates
  import opened TripClock
  import opened Ledger
  import opened Protocol
  import opened Stores
  import opened OfferLoop
  import opened MatchingService

  /** The rides overdue in `start` that are still matching in `db`. */
  function StillWaiting(start: Db, db: Db, now: Instant): set<RideId> {
    set r | r in start.rides && Overdue(start, r, now) && HasStatus(db, r, Matching)
  }

  function ExpiredSince(start: Db, db: Db, now: Instant): set<RideId> {
    set r | r in start.rides && Overdue(start, r, now) && HasStatus(db, r, Expired)
  }

  datatype SweepRun = SweepRun(batch: seq<RideId>, now: Instant)

  /** Sweeps one after another with nothing else touching rides, on a nondecreasing clock. */
  ghost predicate Uncontended(dbs: seq<Db>, sweeps: seq<SweepRun>) {
    && |dbs| == |sweeps| + 1
    && (forall n | 0 <= n < |sweeps| ::
          OldestMatching(dbs[n], sweeps[n].batch) && Swept(dbs[n], dbs[n + 1], sweeps[n].batch, sweeps[n].now))
    && (forall n | 0 < n < |sweeps| :: sweeps[n - 1].now <= sweeps[n].now)
  }

  /** Rides only leave matching, and never change their age. */
  predicate Later(start: Db, db: Db) {
    && db.rides.Keys == start.rides.Keys
    && forall r | r in start.rides :: RideLater(start.rides[r], db.rides[r])
  }

  predicate RideLater(a: Ride, b: Ride) {
    && b.createdAt == a.createdAt && (b.status == Matching ==> a.status == Matching)
    && (a.status == Matching ==> b.status == Matching || b.status == Expired)
  }

  /** A batch that leaves a waiting ride out is fifty waiting rides. */
  lemma BatchIsWaiting(start: Db, db: Db, batch: seq<RideId>, since: Instant, r: RideId)
    requires Later(start, db) && OldestMatching(db, batch)
    requires r in StillWaiting(start, db, since) && r !in batch
    ensures |batch| == 50 && Members(batch) <= StillWaiting(start, db, since)
  {
  }

  /** A sweep expires fifty of the rides waiting, or all of them. */
  lemma SweepTakesFifty(start: Db, db: Db, db': Db, sweep: SweepRun, since: Instant)
    requires Later(start, db) && OldestMatching(db, sweep.batch) && Swept(db, db', sweep.batch, sweep.now)
    requires since <= sweep.now
    ensures Later(start, db')
    ensures var before, left := |StillWaiting(start, db, since)|, |StillWaiting(start, db', since)|;
      left == 0 || left <= before - 50
  {
    assert forall r | r in db.rides :: RideSwept(db, r, db'.rides[r], r in sweep.batch, sweep.now);
    var waiting, left := StillWaiting(start, db, since), StillWaiting(start, db', since);
    assert left == waiting - Members(sweep.batch);
    if r :| r in left {
      BatchIsWaiting(start, db, sweep.batch, since, r);
      MembersCount(sweep.batch);
    }
  }

  /** After k uncontended sweeps at least min(M, 50 k) of the M rides overdue at the first
      have expired. */
  lemma SweepsExpire(dbs: seq<Db>, sweeps: seq<SweepRun>)
    requires Uncontended(dbs, sweeps) && sweeps != []
    ensures var start, end, now, k := dbs[0], dbs[|sweeps|], sweeps[0].now, |sweeps|;
      var overdue := |StillWaiting(start, start, now)|;
      |ExpiredSince(start, end, now)| >= Min(overdue, 50 * k)
  {
    var start, end, now, k := dbs[0], dbs[|sweeps|], sweeps[0].now, |sweeps|;
    WaitingAfter(dbs, sweeps, k);
    var overdue := StillWaiting(start, start, now);
    assert ExpiredSince(start, end, now) == overdue - StillWaiting(start, end, now);
    assert StillWaiting(start, end, now) <= overdue;
  }

  lemma {:induction false} WaitingAfter(dbs: seq<Db>, sweeps: seq<SweepRun>, k: nat)
    requires Uncontended(dbs, sweeps) && sweeps != [] && k <= |sweeps|
    ensures var start, now := dbs[0], sweeps[0].now;
      var overdue, left := |StillWaiting(start, start, now)|, |StillWaiting(start, dbs[k], now)|;
      Later(start, dbs[k]) && (left == 0 || left <= overdue - 50 * k)
  {
    if k > 0 {
      WaitingAfter(dbs, sweeps, k - 1);
      ClockRuns(dbs, sweeps, k - 1);
      SweepTakesFifty(dbs[0], dbs[k - 1], dbs[k], sweeps[k - 1], sweeps[0].now);
    }
  }

  lemma {:induction false} ClockRuns(dbs: seq<Db>, sweeps: seq<SweepRun>, k: nat)
    requires Uncontended(dbs, sweeps) && k < |sweeps|
    ensures sweeps[0].now <= sweeps[k].now
  {
    if k > 0 { ClockRuns(dbs, sweeps, k - 1); }
  }

  /** The database can join every matching ride to its quote. */
  ghost predicate Searchable(db: Db) {
    forall r | HasStatus(db, r, Matching) :: SearchOf(db, r).Some?
  }

  lemma SweptSearchable(db: Db, db': Db, batch: seq<RideId>, now: Instant)
    requires Searchable(db) && Swept(db, db', batch, now)
    ensures Searchable(db')
  {
    forall r | HasStatus(db', r, Matching) ensures SearchOf(db', r).Some? {
      assert RideSwept(db, r, db'.rides[r], r in batch, now);
      assert HasStatus(db, r, Matching) && SearchOf(db, r).Some?;
    }
  }

  /** The sweeper ticks at the given times, with nothing else touching rides or the pool;
      `select` is whichever oldest batch the database picks. */
  method Ticks(engine: Engine, times: seq<Instant>, select: Db -> seq<RideId>, nearby: Search -> seq<DriverId>)
    requires engine.Wired() && Searchable(engine.st.pg) && Answers(engine.st.redis, engine.offers.km, nearby)
    requires forall db | Searchable(db) :: OldestMatching(db, select(db))
    requires times != [] && forall n | 0 < n < |times| :: times[n - 1] <= times[n]
    modifies engine.st
    ensures var start, end := old(engine.st.pg), engine.st.pg;
      |ExpiredSince(start, end, times[0])| >= Min(|StillWaiting(start, start, times[0])|, 50 * |times|)
  {
    hide Answers, OldestMatching, Searchable, Swept, Alone;
    ghost var dbs: seq<Db>, sweeps: seq<SweepRun> := [engine.st.pg], [];
    for n := 0 to |times|
      invariant |sweeps| == n && |dbs| == n + 1 && dbs[n] == engine.st.pg && dbs[0] == old(engine.st.pg)
      invariant forall m | 0 <= m < n :: sweeps[m].now == times[m]
      invariant forall m | 0 <= m < n ::
        OldestMatching(dbs[m], sweeps[m].batch) && Swept(dbs[m], dbs[m + 1], sweeps[m].batch, sweeps[m].now)
      invariant Searchable(engine.st.pg) && engine.st.redis.geo == old(engine.st.redis).geo
    {
      var batch := select(engine.st.pg);
      SamePool(old(engine.st.redis), engine.st.redis, engine.offers.km, nearby);
      engine.Sweep(batch, times[n], nearby);
      SweptSearchable(dbs[n], engine.st.pg, batch, times[n]);
      dbs, sweeps := dbs + [engine.st.pg], sweeps + [SweepRun(batch, times[n])];
    }
    SweepsExpire(dbs, sweeps);
  }

}
