/** Accepting and declining offers, and the sweeper that advances or expires rides. */
module MatchingService {
  import opened Prelude
  import opened RideStates
  import opened TripClock
  import opened Ledger
  import opened LedgerInvariants
  import LedgerTheorems
  import opened Redis
  import opened Protocol
  import opened Stores
  import opened DriverService
  import opened OfferLoop
  import opened RideService

  const SWEEP_BATCH := 50

  /** Another active ride of the driver, which the unique index on active drivers refuses. */
  predicate Clash(db: Db, r: RideId, d: DriverId) {
    Busy(db.(rides := db.rides - {r}), d)
  }

  /** The rows a sweep selects and locks: up to fifty matching rides, oldest first. */
  ghost predicate OldestMatching(db: Db, batch: seq<RideId>) {
    && |batch| <= SWEEP_BATCH
    && (forall n, m | 0 <= n < m < |batch| :: batch[n] != batch[m])
    && (forall r | r in batch :: HasStatus(db, r, Matching) && SearchOf(db, r).Some?)
    && (forall n, m | 0 <= n < m < |batch| :: Older(db, batch[n], batch[m]))
    && (forall r | HasStatus(db, r, Matching) && r !in batch ::
          |batch| == SWEEP_BATCH && forall r' | r' in batch :: Older(db, r', r))
  }

  /** Created no later. */
  predicate Older(db: Db, a: RideId, b: RideId) {
    a in db.rides && b in db.rides && db.rides[a].createdAt <= db.rides[b].createdAt
  }

  function RowFor(db: Db, r: RideId): Row
    requires HasStatus(db, r, Matching) && SearchOf(db, r).Some?
  {
    Row(SearchOf(db, r).value, db.rides[r].createdAt)
  }

  lemma {:induction false} RowsInOrder(db: Db, batch: seq<RideId>)
    requires forall r | r in batch :: HasStatus(db, r, Matching) && SearchOf(db, r).Some?
    ensures |RowsOf(db, batch)| == |batch|
    ensures forall n | 0 <= n < |batch| :: RowsOf(db, batch)[n] == RowFor(db, batch[n])
  {
    if batch != [] {
      assert forall r | r in batch[1..] :: r in batch;
      RowsInOrder(db, batch[1..]);
    }
  }

  /** Matching for more than a minute. */
  predicate Overdue(db: Db, r: RideId, now: Instant) {
    HasStatus(db, r, Matching) && now - db.rides[r].createdAt > 60_000_000_000
  }

  /** What a sweep does to the rides: those of its batch that are overdue expire. */
  ghost predicate Swept(db: Db, db': Db, batch: seq<RideId>, now: Instant) {
    && db'.rides.Keys == db.rides.Keys && db'.quotes == db.quotes
    && forall r | r in db.rides :: RideSwept(db, r, db'.rides[r], r in batch, now)
  }

  predicate RideSwept(db: Db, r: RideId, ride: Ride, inBatch: bool, now: Instant)
    requires r in db.rides
  {
    && ride.createdAt == db.rides[r].createdAt && ride.quote == db.rides[r].quote
    && ride.status == if inBatch && Overdue(db, r, now) then Expired else db.rides[r].status
  }

  /** A ride assigned to a driver: the driver and the code on its row, the driver on trip. */
  ghost function AssignedTo(db: Db, r: RideId, d: DriverId, otp: string, now: Instant): Db
    requires r in db.rides && d in db.drivers
  {
    db.(rides := db.rides[r := db.rides[r].(status := DriverAssigned, driver := Some(d), otp := Some(otp), updatedAt := now)],
        drivers := db.drivers[d := db.drivers[d].(status := OnTrip)],
        log := db.log + [Moved(r, Matching, DriverAssigned), Assigned(r, d)])
  }

  /** What an assignment leaves: the ride's offer and cached view are gone, and the driver is
      out of the pool, marked with the ride and mirrored as on trip. */
  ghost function AcceptedKeys(k: Keys, d: DriverId, r: RideId, row: Driver): Keys {
    k.(offerRide := k.offerRide - {r}, cache := k.cache - {r},
       geo := k.geo - {(row.city, d)}, marker := k.marker[d := r], mirror := k.mirror[d := Mirror(OnTrip, row.tier, row.city)])
  }

  /** The offer given up. */
  ghost function DeclinedKeys(k: Keys, d: DriverId, r: RideId): Keys {
    k.(offerDriver := k.offerDriver - {d},
       offerRide := if r in k.offerRide && k.offerRide[r] == d then k.offerRide - {r} else k.offerRide)
  }

  /** The ride can be assigned to the driver. */
  ghost predicate Assignable(db: Db, r: RideId, d: DriverId) {
    && r in db.rides && db.rides[r].status == Matching && d in db.drivers && db.drivers[d].status == Available
  }

  /** The driver already has the ride, which has since been neither cancelled nor expired. */
  ghost predicate Repeats(db: Db, r: RideId, d: DriverId) {
    && r in db.rides && db.rides[r].driver == Some(d)
    && db.rides[r].status in {DriverAssigned, DriverArriving, RideStatus.Arrived, InProgress, Completed}
  }

  /** What a sweep does to one row's ride over these stores. */
  ghost predicate RowHandled(db: Db, k: Keys, db': Db, k': Keys, row: Row, now: Instant, members: seq<DriverId>) {
    var r := row.search.r;
    if now - row.createdAt > 60_000_000_000 then
      if r in db.rides && db.rides[r].status == Matching then
        && db' == db.(rides := db.rides[r := db.rides[r].(status := RideStatus.Expired, updatedAt := now)],
                      log := db.log + [Moved(r, Matching, RideStatus.Expired)])
        && k' == k.(cache := k.cache - {r})
      else db' == db && k' == k
    else db' == db && if r in k.offerRide then k' == k else OfferMade(k, k', row.search, members)
  }

  class Engine {
    const st: Store
    const drivers: Drivers
    const offers: Offers
    const rides: Rides

    constructor (st: Store, drivers: Drivers, offers: Offers, rides: Rides)
      requires drivers.st == st && offers.st == st && rides.st == st && rides.Wired()
      ensures this.st == st && this.offers == offers && Wired()
    {
      this.st, this.drivers, this.offers, this.rides := st, drivers, offers, rides;
    }

    predicate Wired() {
      drivers.st == st && offers.st == st && rides.st == st && rides.Wired()
    }

    /** The assignment transaction. Over sound tables its index check never fires. */
    method AssignTx(r: RideId, d: DriverId, otp: string, now: Instant) returns (error: Option<Error>)
      modifies st`pg
      ensures st.pg == if error.None? then Apply(old(st.pg), AssignRide(r, d, otp, now)) else old(st.pg)
      ensures error == if Ledger.Ok(old(st.pg), AssignRide(r, d, otp, now)) && !Clash(old(st.pg), r, d) then None else Some(RideGone)
      ensures error.None? <==> Assignable(old(st.pg), r, d) && forall r' ::
        r' in old(st.pg).rides && r' != r && old(st.pg).rides[r'].driver == Some(d) ==>
          old(st.pg).rides[r'].status in {Completed, CancelledByRider, CancelledByDriver, RideStatus.Expired}
      ensures error.None? ==> st.pg == AssignedTo(old(st.pg), r, d, otp, now)
    {
      ClashIsOther(st.pg, r, d);
      hide Clash;
      var tx := st.pg;
      if r !in tx.rides || tx.rides[r].status != Matching {
        return Some(RideGone);
      }
      if Clash(tx, r, d) {
        return Some(RideGone);
      }
      tx := tx.(rides := tx.rides[r := tx.rides[r].(
        status := DriverAssigned, driver := Some(d), otp := Some(otp), updatedAt := now)]);
      if d !in tx.drivers || tx.drivers[d].status != Available {
        return Some(RideGone);
      }
      tx := tx.(drivers := tx.drivers[d := tx.drivers[d].(status := OnTrip)]);
      tx := Logged(Logged(tx, Moved(r, Matching, DriverAssigned)), Assigned(r, d));
      st.pg := tx;
      return None;
    }

    /** Assigns the ride to the driver if the driver holds its live offer; the offer is
        consumed whatever happens. Repeating a successful acceptance succeeds again. */
    method Accept(d: DriverId, r: RideId, otp: string, now: Instant) returns (view: Reply<View>)
      requires Wired() && Inv(st.pg)
      modifies st
      ensures Alone(old(st.At(Accepting(TakeHeld(d, r)))), st.At(Done(if view.Success? then Accepted(d, r) else Rejected)))
      ensures view.Success? <==>
        if Lookup(old(st.redis).offerDriver, d) == Some(r) then Ledger.Ok(old(st.pg), AssignRide(r, d, otp, now))
        else AlreadyAssigned(old(st.pg), d, r)
      ensures view.Success? <==> if d in old(st.redis).offerDriver && old(st.redis).offerDriver[d] == r
                                 then Assignable(old(st.pg), r, d) else Repeats(old(st.pg), r, d)
      ensures view.Failure? ==> view.error == if d in old(st.redis).offerDriver && old(st.redis).offerDriver[d] == r
                                              then RideGone else OfferExpired
      ensures if view.Success? && d in old(st.redis).offerDriver && old(st.redis).offerDriver[d] == r then
          && st.pg == AssignedTo(old(st.pg), r, d, otp, now)
          && st.redis == AcceptedKeys(old(st.redis).(offerDriver := old(st.redis).offerDriver - {d}),
                                      d, r, old(st.pg).drivers[d])
        else st.pg == old(st.pg) && st.redis == old(st.redis).(offerDriver := old(st.redis).offerDriver - {d})
      ensures view.Success? ==> r in st.pg.rides && view.value == ViewOf(st.pg, r) && view.value.driver == Some(d)
    {
      hide Clash, Alone, Assignable, Repeats, Ledger.Ok, Apply, AssignedTo, AcceptedKeys;
      AcceptAlone(st.pg, st.redis, d, r, otp, now);
      if Assignable(st.pg, r, d) { NoClash(st.pg, r, d, otp, now); }
      AcceptGuards(st.pg, r, d, otp, now);
      hide Inv;
      var held := Lookup(st.redis.offerDriver, d);
      st.redis := st.redis.(offerDriver := st.redis.offerDriver - {d});
      if held != Some(r) {
        view := rides.Load(r);
        if view.Success? && view.value.driver == Some(d) && Driven(view.value.status) {
          return view;
        }
        return Failure(OfferExpired);
      }
      var error := AssignTx(r, d, otp, now);
      if error.Some? {
        return Failure(error.value);
      }
      AssignmentHolds(old(st.pg), r, d, otp, now);
      FollowUp(d, r);
      view := rides.Load(r);
    }

    /** What follows a committed assignment: the driver's mirrors, the cache, the offer. */
    method FollowUp(d: DriverId, r: RideId)
      requires Wired() && d in st.pg.drivers
      modifies st`redis
      ensures st.redis == AcceptedKeys(old(st.redis), d, r, st.pg.drivers[d])
    {
      var row := st.pg.drivers[d];
      drivers.MarkOnTrip(d, r, row.city, row.tier);
      st.redis := st.redis.(cache := st.redis.cache - {r});
      st.redis := st.redis.(offerRide := st.redis.offerRide - {r});
    }

    /** Gives the offer up, and offers the ride on at once if it is still matching. */
    method Decline(d: DriverId, r: RideId, nearby: Search -> seq<DriverId>) returns (error: Option<Error>)
      requires Wired()
      requires Answers(st.redis, offers.km, nearby)
      modifies st`redis
      ensures Alone(old(st.At(Declining(TakeDeclined(d, r)))), st.At(FINISHED))
      ensures error == if r in st.pg.rides && st.pg.rides[r].quote in st.pg.quotes then None else Some(NotFound)
      ensures MatchRequested(st.pg, DeclinedKeys(old(st.redis), d, r), st.redis, r, nearby)
    {
      ghost var s0 := st.At(Declining(TakeDeclined(d, r)));
      Here(s0);
      st.redis := st.redis.(offerDriver := st.redis.offerDriver - {d});
      ghost var s := Next(s0, s0, QUIET);
      var offered := Lookup(st.redis.offerRide, r);
      s := Next(s0, s, QUIET);
      if offered == Some(d) {
        st.redis := st.redis.(offerRide := st.redis.offerRide - {r});
        s := Next(s0, s, QUIET);
      }
      SamePool(old(st.redis), st.redis, offers.km, nearby);
      var found := offers.RequestMatch(r, nearby, Declining(LoadDeclined(r)));
      Joined(s0, s, st.At(FINISHED));
      return if found then None else Some(NotFound);
    }

    /** The rows of the batch, as scanned. */
    method ClaimMatchingBatch(batch: seq<RideId>) returns (rows: seq<Row>)
      requires OldestMatching(st.pg, batch)
      ensures rows == RowsOf(st.pg, batch) && |rows| == |batch|
      ensures forall n | 0 <= n < |rows| :: batch[n] in st.pg.rides && rows[n].search.r == batch[n]
                                        && rows[n].createdAt == st.pg.rides[batch[n]].createdAt
    {
      rows := [];
      for n := 0 to |batch|
        invariant |rows| == n && forall m | 0 <= m < n :: batch[m] in batch && rows[m] == RowFor(st.pg, batch[m])
      {
        var r := batch[n];
        rows := rows + [Row(SearchOf(st.pg, r).value, st.pg.rides[r].createdAt)];
      }
      RowsInOrder(st.pg, batch);
    }

    /** Expires the row's ride if it is overdue, else offers it on if no offer is out. */
    method SweepRow(row: Row, ghost rest: seq<Row>, now: Instant, nearby: Search -> seq<DriverId>)
      requires Wired() && Answers(st.redis, offers.km, nearby)
      modifies st
      ensures Alone(old(st.At(Sweeping(NextRow([row] + rest, now)))), st.At(Sweeping(NextRow(rest, now))))
      ensures st.redis.geo == old(st.redis).geo
      ensures st.pg == if now - row.createdAt > MATCH_DEADLINE
                       then Apply(old(st.pg), MoveRide(row.search.r, Matching, Expired, now)) else old(st.pg)
      ensures RowHandled(old(st.pg), old(st.redis), st.pg, st.redis, row, now, nearby(row.search))
    {
      ghost var s0 := st.At(Sweeping(NextRow([row] + rest, now)));
      Here(s0);
      ghost var s := Next(s0, s0, QUIET);
      assert ([row] + rest)[1..] == rest;
      if now - row.createdAt > MATCH_DEADLINE {
        var _ := rides.Expire(row.search.r, now, rest, now);
        Joined(s0, s, st.At(Sweeping(NextRow(rest, now))));
      } else {
        s := Next(s0, s, QUIET);
        if row.search.r !in st.redis.offerRide {
          var _ := offers.OfferNext(row.search, nearby(row.search), Sweeping(NextRow(rest, now)));
          Joined(s0, s, st.At(Sweeping(NextRow(rest, now))));
        }
      }
    }

    /** Acts on the rows of the batch one after another. */
    method SweepRows(batch: seq<RideId>, rows: seq<Row>, now: Instant, nearby: Search -> seq<DriverId>)
      requires Wired() && OldestMatching(st.pg, batch) && |rows| == |batch|
      requires forall n | 0 <= n < |rows| :: batch[n] in st.pg.rides && rows[n].search.r == batch[n]
                                         && rows[n].createdAt == st.pg.rides[batch[n]].createdAt
      requires Answers(st.redis, offers.km, nearby)
      modifies st
      ensures Alone(old(st.At(Sweeping(NextRow(rows, now)))), st.At(Sweeping(NextRow([], now))))
      ensures Swept(old(st.pg), st.pg, batch, now)
      ensures st.redis.geo == old(st.redis).geo
    {
      NothingSwept(st.pg, now);
      assert batch[..0] == [] && rows[0..] == rows;
      hide Swept, Answers, OldestMatching, Apply, Alone;
      ghost var s0 := st.At(Sweeping(NextRow(rows, now)));
      Here(s0);
      for n := 0 to |rows|
        invariant Alone(s0, st.At(Sweeping(NextRow(rows[n..], now))))
        invariant st.redis.geo == old(st.redis).geo
        invariant Swept(old(st.pg), st.pg, batch[..n], now)
      {
        ghost var before, s := st.pg, st.At(Sweeping(NextRow(rows[n..], now)));
        assert rows[n..] == [rows[n]] + rows[n + 1..];
        SamePool(old(st.redis), st.redis, offers.km, nearby);
        SweepRow(rows[n], rows[n + 1..], now, nearby);
        Joined(s0, s, st.At(Sweeping(NextRow(rows[n + 1..], now))));
        RowSwept(old(st.pg), before, batch, n, now);
      }
      assert batch[..|batch|] == batch && rows[|rows|..] == [];
    }

    /** One sweep, over the batch the database selects. */
    method Sweep(batch: seq<RideId>, now: Instant, nearby: Search -> seq<DriverId>)
      requires Wired() && OldestMatching(st.pg, batch)
      requires Answers(st.redis, offers.km, nearby)
      modifies st
      ensures Alone(old(st.At(Sweeping(ClaimBatch))), st.At(FINISHED))
      ensures Swept(old(st.pg), st.pg, batch, now)
      ensures st.redis.geo == old(st.redis).geo
    {
      ghost var s0 := st.At(Sweeping(ClaimBatch));
      Here(s0);
      ghost var s := Next(s0, s0, QUIET.(batch := batch, now := now));
      var rows := ClaimMatchingBatch(batch);
      hide Swept, Answers, OldestMatching, Alone;
      SweepRows(batch, rows, now, nearby);
      Joined(s0, s, st.At(Sweeping(NextRow([], now))));
      s := Next(s0, st.At(Sweeping(NextRow([], now))), QUIET);
    }
  }

  /** An acceptance run alone: by the holder of the ride's offer, and by anybody else. */
  lemma AcceptAlone(db: Db, k: Keys, d: DriverId, r: RideId, otp: string, now: Instant)
    ensures var s0 := Solo(db, k, Accepting(TakeHeld(d, r)));
      var held, taken := d in k.offerDriver && k.offerDriver[d] == r, k.(offerDriver := k.offerDriver - {d});
      && (held && Assignable(db, r, d) ==>
            Alone(s0, Solo(AssignedTo(db, r, d, otp, now), AcceptedKeys(taken, d, r, db.drivers[d]), Done(Accepted(d, r)))))
      && (!held && Repeats(db, r, d) ==> Alone(s0, Solo(db, taken, Done(Accepted(d, r)))))
      && (!(if held then Assignable(db, r, d) else Repeats(db, r, d)) ==> Alone(s0, Solo(db, taken, REJECTED)))
  {
    hide Alone, StepAlone, Apply, Ledger.Ok, AlreadyAssigned, Assignable, Repeats, AssignedTo, AcceptedKeys;
    AcceptGuards(db, r, d, otp, now);
    var s0, i := Solo(db, k, Accepting(TakeHeld(d, r))), QUIET.(now := now, otp := otp);
    Here(s0);
    AcceptingAlone(s0, TakeHeld(d, r), QUIET);
    var s := Next(s0, s0, QUIET);
    if d in k.offerDriver && k.offerDriver[d] == r {
      AcceptingAlone(s, Assign(d, r), i);
      s := Next(s0, s, i);
      if Assignable(db, r, d) {
        AssignmentHolds(db, r, d, otp, now);
        AssignedAlone(s0, s, d, r);
      }
    } else {
      AcceptingAlone(s, Replay(d, r), QUIET);
      s := Next(s0, s, QUIET);
    }
  }

  lemma AssignedAlone(s0: Solo, s: Solo, d: DriverId, r: RideId)
    requires Alone(s0, s) && s.proc == Accepting(LoadCard(d, r)) && d in s.db.drivers
    ensures Alone(s0, Solo(s.db, AcceptedKeys(s.keys, d, r, s.db.drivers[d]), Done(Accepted(d, r))))
  {
    hide Alone, StepAlone;
    var row := s.db.drivers[d];
    AcceptingAlone(s, LoadCard(d, r), QUIET);
    var t := Next(s0, s, QUIET);
    AcceptingAlone(t, MarkDriver(d, r, row.city, row.tier), QUIET);
    t := Next(s0, t, QUIET);
    AcceptingAlone(t, UncacheTaken(d, r), QUIET);
    t := Next(s0, t, QUIET);
    AcceptingAlone(t, DropTaken(d, r), QUIET);
    t := Next(s0, t, QUIET);
    AcceptingAlone(t, LoadTaken(d, r), QUIET);
    t := Next(s0, t, QUIET);
  }

  lemma AcceptGuards(db: Db, r: RideId, d: DriverId, otp: string, now: Instant)
    ensures Ledger.Ok(db, AssignRide(r, d, otp, now)) <==> Assignable(db, r, d)
    ensures AlreadyAssigned(db, d, r) <==> Repeats(db, r, d)
    ensures Assignable(db, r, d) ==>
      && r in db.rides && d in db.drivers && Apply(db, AssignRide(r, d, otp, now)) == AssignedTo(db, r, d, otp, now)
      && d in AssignedTo(db, r, d, otp, now).drivers
    ensures !Assignable(db, r, d) ==> Apply(db, AssignRide(r, d, otp, now)) == db
  {
    hide Active, Busy;
  }

  lemma AssignmentHolds(db: Db, r: RideId, d: DriverId, otp: string, now: Instant)
    requires Assignable(db, r, d)
    ensures var db' := AssignedTo(db, r, d, otp, now);
      && r in db'.rides && db'.rides[r].driver == Some(d) && d in db'.drivers
      && db'.drivers[d].city == db.drivers[d].city && db'.drivers[d].tier == db.drivers[d].tier
      && forall k :: AcceptedKeys(k, d, r, db'.drivers[d]) == AcceptedKeys(k, d, r, db.drivers[d])
  {
  }

  lemma NoClash(db: Db, r: RideId, d: DriverId, otp: string, now: Instant)
    requires Inv(db) && Assignable(db, r, d)
    ensures !Clash(db, r, d)
  {
    LedgerTheorems.DriverIndexRedundant(db, r, d, otp, now);
  }

  lemma ClashIsOther(db: Db, r: RideId, d: DriverId)
    ensures Clash(db, r, d) <==> exists r' ::
      && r' in db.rides && r' != r && db.rides[r'].driver == Some(d)
      && db.rides[r'].status !in {Completed, CancelledByRider, CancelledByDriver, RideStatus.Expired}
  {
    var others := db.(rides := db.rides - {r});
    if r' :| r' in db.rides && r' != r && db.rides[r'].driver == Some(d) && Active(db.rides[r'].status) {
      assert r' in others.rides;
    }
  }

  lemma NothingSwept(db: Db, now: Instant)
    ensures Swept(db, db, [], now)
  {
  }

  lemma RowSwept(db: Db, db': Db, batch: seq<RideId>, n: nat, now: Instant)
    requires OldestMatching(db, batch) && n < |batch| && Swept(db, db', batch[..n], now)
    ensures batch[n] in db.rides
    ensures Swept(db, if now - db.rides[batch[n]].createdAt > MATCH_DEADLINE
                      then Apply(db', MoveRide(batch[n], Matching, Expired, now)) else db', batch[..n + 1], now)
  {
    assert batch[n] in batch && HasStatus(db, batch[n], Matching);
    assert batch[..n + 1] == batch[..n] + [batch[n]];
    assert batch[n] !in batch[..n];
    assert RideSwept(db, batch[n], db'.rides[batch[n]], false, now);
  }

}
