/** Starting, pausing, resuming and ending trips. The service remembers, for the proof
    only, when each trip began and every pause it took; the stores remember whole seconds. */
module TripService {
  import opened Prelude
  import opened Pricing
  import opened RideStates
  import opened TripClock
  import opened Ledger
  import opened LedgerInvariants
  import LedgerTheorems
  import opened Redis
  import opened Protocol
  import opened Stores
  import opened DriverService

  /** What really happened on a trip: its start, its finished pauses, and the start of the
      pause it is in. */
  datatype Journey = Journey(began: Instant, pauses: seq<Pause>, since: Option<Instant>)
  {
    /** The pauses, were the trip to end now. */
    function PausesAt(now: Instant): seq<Pause> {
      match since
      case None => pauses
      case Some(from) => pauses + [Pause(from, now)]
    }

    function Resumed(now: Instant): Journey {
      this.(pauses := PausesAt(now), since := None)
    }
  }

  /** The stores remember of a journey what they should: the key that holds the start of a
      pause is there exactly while the trip is paused. */
  predicate Remembers(trip: Trip, key: Option<PausedAt>, j: Journey) {
    && trip.startedAt == Column(j.began)
    && trip.pausedSeconds == FoldedSeconds(j.pauses)
    && (trip.status == Paused <==> j.since.Some?)
    && key == (match j.since case None => None case Some(from) => Some(PausedAt(Unix(from), from + PAUSED_AT_TTL)))
  }

  ghost predicate Tracked(trips: map<RideId, Trip>, pausedAt: map<RideId, PausedAt>, journeys: map<RideId, Journey>) {
    && (forall r | r in trips && trips[r].status != Ended ::
          r in journeys && Remembers(trips[r], Lookup(pausedAt, r), journeys[r]))
    && (forall r | r in pausedAt :: r in trips && trips[r].status == Paused)
  }

  /** The whole seconds charged stay within the trip, and within n + 1 seconds of the time
      it was not paused. */
  predicate ChargedFairly(j: Journey, now: Instant, charged: nat) {
    var pauses := j.PausesAt(now);
    var net, slack := now - j.began - PausedTime(pauses), (|pauses| + 1) * SECOND;
    && 0 <= charged <= WholeSeconds(now - Column(j.began))
    && -slack < charged * SECOND - net < slack
  }

  /** The journey's instants come in order, up to now. */
  predicate Ordered(j: Journey, now: Instant) {
    InOrder(j.began, j.PausesAt(now), now)
  }

  ghost predicate AllOrdered(journeys: map<RideId, Journey>, now: Instant) {
    forall r | r in journeys :: Ordered(journeys[r], now)
  }

  /** On a clock that never goes back every journey stays in order, also when one starts,
      pauses or resumes now. */
  lemma ClockKeepsOrder(journeys: map<RideId, Journey>, t: Instant, r: RideId, now: Instant)
    requires AllOrdered(journeys, t) && t <= now
    ensures AllOrdered(journeys, now)
    ensures AllOrdered(journeys[r := Journey(now, [], None)], now)
    ensures r in journeys && journeys[r].since.None? ==> AllOrdered(journeys[r := journeys[r].(since := Some(now))], now)
    ensures r in journeys ==> AllOrdered(journeys[r := journeys[r].Resumed(now)], now)
  {
    forall r' | r' in journeys ensures Ordered(journeys[r'], now) {
      OrderLasts(journeys[r'], t, now);
    }
    if r in journeys { OrderChanges(journeys[r], now); }
    hide Ordered;
    assert Ordered(Journey(now, [], None), now) by { Starts(now); }
  }

  lemma Starts(now: Instant)
    ensures Ordered(Journey(now, [], None), now)
  {
  }

  lemma OrderLasts(j: Journey, t: Instant, now: Instant)
    requires Ordered(j, t) && t <= now
    ensures Ordered(j, now)
  {
  }

  lemma OrderChanges(j: Journey, now: Instant)
    requires Ordered(j, now)
    ensures j.since.None? ==> Ordered(j.(since := Some(now)), now)
    ensures Ordered(j.Resumed(now), now)
  {
  }

  lemma PauseTracked(trips: map<RideId, Trip>, k: Keys, journeys: map<RideId, Journey>, r: RideId, now: Instant)
    requires Tracked(trips, k.pausedAt, journeys) && r in trips && trips[r].status == Started
    ensures r in journeys && journeys[r].since.None?
    ensures Tracked(trips[r := trips[r].(status := Paused)], SetPausedAt(k, r, now).pausedAt,
                    journeys[r := journeys[r].(since := Some(now))])
  {
  }

  /** The whole seconds folded in by a resume, or by an end, are those of the pause. */
  lemma PauseIsWorth(trips: map<RideId, Trip>, k: Keys, journeys: map<RideId, Journey>, r: RideId, now: Instant)
    requires Tracked(trips, k.pausedAt, journeys) && r in trips && trips[r].status != Ended
    ensures r in journeys && trips[r].startedAt == Column(journeys[r].began)
    ensures trips[r].status == Paused <==> journeys[r].since.Some?
    ensures FoldedSeconds(journeys[r].PausesAt(now)) ==
      trips[r].pausedSeconds + if trips[r].status == Paused then Elapsed(k, r, now) else 0
  {
  }

  lemma ResumeTracked(trips: map<RideId, Trip>, k: Keys, journeys: map<RideId, Journey>, r: RideId, now: Instant)
    requires Tracked(trips, k.pausedAt, journeys) && r in trips && trips[r].status == Paused
    ensures r in journeys
    ensures Tracked(trips[r := trips[r].(status := Started, pausedSeconds := trips[r].pausedSeconds + Elapsed(k, r, now))],
                    TakePausedAt(k, r).pausedAt,
                    journeys[r := journeys[r].Resumed(now)])
  {
    hide Elapsed, FoldedSeconds;
    PauseIsWorth(trips, k, journeys, r, now);
  }

  lemma OnlyPausedHaveKeys(trips: map<RideId, Trip>, k: Keys, journeys: map<RideId, Journey>, r: RideId)
    requires Tracked(trips, k.pausedAt, journeys) && !(r in trips && trips[r].status == Paused)
    ensures TakePausedAt(k, r) == k
  {
  }

  lemma StartTracked(trips: map<RideId, Trip>, k: Keys, journeys: map<RideId, Journey>, r: RideId, now: Instant)
    requires Tracked(trips, k.pausedAt, journeys) && r !in trips
    ensures Tracked(trips[r := Trip(Started, Column(now), None, 0, None, None)], k.pausedAt,
                    journeys[r := Journey(now, [], None)])
  {
  }

  lemma EndTracked(trips: map<RideId, Trip>, k: Keys, journeys: map<RideId, Journey>, r: RideId, row: Trip)
    requires Tracked(trips, k.pausedAt, journeys) && r in trips && row.status == Ended
    ensures Tracked(trips[r := row], k.pausedAt - {r}, journeys)
  {
  }

  lemma QuoteOnFile(db: Db, r: RideId)
    requires Inv(db) && r in db.rides
    ensures db.rides[r].quote in db.quotes
  {
  }

  /** The seconds a journey is charged for if it ends now. */
  function ChargeOf(j: Journey, now: Instant): nat {
    Charge(j.began, j.PausesAt(now), now)
  }

  function TimesOf(db: Db, k: Keys, d: DriverId, r: RideId, now: Instant): Bill
    requires r in db.rides && r in db.trips
  {
    var (ride, trip) := (db.rides[r], db.trips[r]);
    Bill(d, r, ride.quote, ride.tier, if ride.payBy.Some? then ride.payBy.value else Cash, trip.startedAt,
         trip.pausedSeconds + (if trip.status == Paused then Elapsed(k, r, now) else 0), 0, 0, 0)
  }

  /** The seconds of a pause that ends now: none once its key has been gone or is two
      hours old, or when the clock went back. */
  ghost function PauseEndedAt(k: Keys, r: RideId, now: Instant): int {
    if r in k.pausedAt && now < k.pausedAt[r].expiresAt && now / 1_000_000_000 >= k.pausedAt[r].unix
    then now / 1_000_000_000 - k.pausedAt[r].unix else 0
  }

  /** The metres billed: those metered, to the nearest whole one, or else those quoted. */
  ghost predicate MetresBilled(k: Keys, r: RideId, quoted: int, metres: int) {
    if r in k.dist && k.dist[r] > 0.0 then -0.5 < metres as real - k.dist[r] <= 0.5 else metres == quoted
  }

  /** The bill of a trip ended now: nothing but rows, keys and the clock. */
  ghost predicate BillOf(db: Db, k: Keys, d: DriverId, r: RideId, now: Instant, b: Bill) {
    && r in db.rides && db.rides[r].status == InProgress && r in db.trips && db.rides[r].quote in db.quotes
    && var (ride, trip, quote) := (db.rides[r], db.trips[r], db.quotes[db.rides[r].quote]);
    && b.d == d && b.r == r && b.q == ride.quote && b.tier == ride.tier
    && b.payBy == (if ride.payBy.Some? then ride.payBy.value else Cash)
    && b.startedAt == trip.startedAt && b.endedAt == now && b.surgeX100 == quote.surgeX100
    && b.pausedSeconds == trip.pausedSeconds + (if trip.status == Paused then PauseEndedAt(k, r, now) else 0)
    && MetresBilled(k, r, quote.distanceM, b.distanceM)
  }

  /** A ride begun: in progress, with a trip row that has no pause, distance or fare yet. */
  ghost function Begun(db: Db, r: RideId, now: Instant): Db
    requires r in db.rides
  {
    db.(rides := db.rides[r := db.rides[r].(status := InProgress, updatedAt := now)],
        trips := db.trips[r := Trip(Started, now - now % 1_000, None, 0, None, None)],
        log := db.log + [Moved(r, Arrived, InProgress)])
  }

  /** A ride billed: completed at the fare, its trip row ended, its driver free again if on
      trip, and one pending payment of the fare. */
  ghost function Paid(db: Db, b: Bill, fare: Breakdown, newId: PaymentId): Db
    requires b.r in db.rides && b.r in db.trips
  {
    db.(rides := db.rides[b.r := db.rides[b.r].(status := Completed, fareTotal := Some(fare.total), updatedAt := b.endedAt)],
        trips := db.trips[b.r := db.trips[b.r].(
          status := Ended, endedAt := Some(b.endedAt - b.endedAt % 1_000), pausedSeconds := b.pausedSeconds,
          distanceM := Some(b.distanceM), fare := Some(fare))],
        drivers := if b.d in db.drivers && db.drivers[b.d].status == OnTrip
                   then db.drivers[b.d := db.drivers[b.d].(status := Available)] else db.drivers,
        payments := db.payments[newId := Payment(b.r, fare.total, b.payBy, Pending, None, 0, b.endedAt)],
        log := db.log + [Moved(b.r, InProgress, Completed)])
  }

  /** The tables after an end: the ride billed by what was on file and metered. */
  ghost predicate EndedAs(db: Db, k: Keys, db': Db, d: DriverId, r: RideId, newId: PaymentId, now: Instant) {
    exists b: Bill, fare: Breakdown ::
      && BillOf(db, k, d, r, now, b) && db' == Paid(db, b, fare, newId)
      && fare == FinalFare(Rates(db.rides[r].tier), b.distanceM, ChargedSeconds(b.startedAt, now, b.pausedSeconds), b.surgeX100)
  }

  class Trips {
    const st: Store
    const drivers: Drivers
    ghost var journeys: map<RideId, Journey>
    ghost var clock: Instant // the latest reading

    constructor (st: Store, drivers: Drivers, ghost now: Instant)
      requires drivers.st == st && st.pg.trips == map[] && st.redis.pausedAt == map[]
      ensures this.st == st && this.drivers == drivers && clock == now && Valid()
    {
      this.st, this.drivers, this.journeys, this.clock := st, drivers, map[], now;
    }

    ghost predicate Valid()
      reads this, st
    {
      drivers.st == st && Tracked(st.pg.trips, st.redis.pausedAt, journeys) && AllOrdered(journeys, clock)
    }

    method Load(r: RideId) returns (trip: Reply<Trip>)
      ensures trip == if r in st.pg.trips then Success(st.pg.trips[r]) else Failure(NotFound)
    {
      return if r in st.pg.trips then Success(st.pg.trips[r]) else Failure(NotFound);
    }

    method AssertAssignedDriver(r: RideId, d: DriverId) returns (error: Option<Error>)
      ensures error == if r !in st.pg.rides then Some(NotFound)
                       else if DrivenBy(st.pg, r, d) then None else Some(Forbidden)
    {
      if r !in st.pg.rides { return Some(NotFound); }
      if st.pg.rides[r].driver != Some(d) { return Some(Forbidden); }
      return None;
    }

    /** Reads and deletes the key of the pause in flight; the seconds it is worth. */
    method ConsumePause(r: RideId, now: Instant) returns (elapsed: nat)
      modifies st`redis
      ensures st.redis == TakePausedAt(old(st.redis), r)
      ensures elapsed == Elapsed(old(st.redis), r, now)
      ensures elapsed == PauseEndedAt(old(st.redis), r, now)
      ensures st.redis == old(st.redis).(pausedAt := old(st.redis).pausedAt - {r})
    {
      var key := Lookup(st.redis.pausedAt, r);
      st.redis := st.redis.(pausedAt := st.redis.pausedAt - {r});
      if key.None? || now >= key.value.expiresAt {
        return 0;
      }
      var seconds := Unix(now) - key.value.unix;
      return if seconds < 0 then 0 else seconds;
    }

    /** Starts the trip for the assigned driver who has the rider's code. */
    method Start(d: DriverId, r: RideId, otp: string, now: Instant) returns (trip: Reply<Trip>)
      requires Valid() && clock <= now
      modifies this, st
      ensures Valid() && clock == now
      ensures Alone(old(st.At(Starting(LoadStart(d, r, otp)))), st.At(Done(if trip.Success? then Finished else Rejected)))
      ensures trip.Success? <==>
        && r in old(st.pg).rides && r !in old(st.pg).trips && old(st.pg).rides[r].driver == Some(d)
        && old(st.pg).rides[r].status == Arrived && old(st.pg).rides[r].otp == Some(otp)
      ensures r !in old(st.pg).rides ==> trip == Failure(NotFound)
      ensures r in old(st.pg).rides ==> var ride := old(st.pg).rides[r];
        && (ride.driver != Some(d) ==> trip == Failure(Forbidden))
        && (ride.driver == Some(d) && (ride.status != Arrived || ride.otp.None?) ==> trip == Failure(InvalidState))
        && (ride.driver == Some(d) && ride.status == Arrived && ride.otp.Some? && ride.otp != Some(otp) ==>
              trip == Failure(InvalidOtp))
        && (ride.driver == Some(d) && ride.status == Arrived && ride.otp == Some(otp) && r in old(st.pg).trips ==>
              trip == Failure(InvalidState))
      ensures trip.Success? ==>
        && st.pg == Begun(old(st.pg), r, now) && trip.value == st.pg.trips[r]
        && st.redis == old(st.redis).(dist := old(st.redis).dist - {r}, cache := old(st.redis).cache - {r})
      ensures trip.Success? ==> journeys == old(journeys)[r := Journey(now, [], None)]
      ensures trip.Failure? ==> st.pg == old(st.pg) && st.redis == old(st.redis) && journeys == old(journeys)
    {
      hide Tracked, AllOrdered, Alone;
      ClockKeepsOrder(journeys, clock, r, now);
      clock := now;
      StartAlone(st.pg, st.redis, d, r, otp, now);
      if r !in st.pg.rides { return Failure(NotFound); }
      var ride := st.pg.rides[r];
      if ride.driver != Some(d) { return Failure(Forbidden); }
      if ride.status != Arrived { return Failure(InvalidState); }
      if ride.otp.None? { return Failure(InvalidState); }
      if ride.otp.value != otp { return Failure(InvalidOtp); }
      if r in st.pg.trips { return Failure(InvalidState); }
      var tx := st.pg.(rides := st.pg.rides[r := ride.(status := InProgress, updatedAt := now)]);
      tx := Logged(tx, Moved(r, Arrived, InProgress));
      tx := tx.(trips := tx.trips[r := Trip(Started, Column(now), None, 0, None, None)]);
      st.pg := tx;
      StartTracked(old(st.pg).trips, st.redis, journeys, r, now);
      journeys := journeys[r := Journey(now, [], None)];
      var _, _ := drivers.ReadAndClearTripDistance(r);
      st.redis := st.redis.(cache := st.redis.cache - {r});
      return Success(st.pg.trips[r]);
    }

    method Pause(d: DriverId, r: RideId, now: Instant) returns (trip: Reply<Trip>)
      requires Valid() && clock <= now
      modifies this, st
      ensures Valid() && clock == now
      ensures Alone(old(st.At(Pausing(LoadPause(d, r)))), st.At(Done(if trip.Success? then Finished else Rejected)))
      ensures trip.Success? <==>
        && r in old(st.pg).rides && old(st.pg).rides[r].driver == Some(d)
        && r in old(st.pg).trips && old(st.pg).trips[r].status == Started
      ensures trip == Failure(NotFound) <==> r !in old(st.pg).rides
      ensures trip == Failure(Forbidden) <==> r in old(st.pg).rides && old(st.pg).rides[r].driver != Some(d)
      ensures trip.Success? ==>
        && trip.value == old(st.pg).trips[r].(status := Paused)
        && st.pg == old(st.pg).(trips := old(st.pg).trips[r := trip.value])
        && st.redis == old(st.redis).(pausedAt :=
             old(st.redis).pausedAt[r := PausedAt(now / 1_000_000_000, now + 7_200_000_000_000)])
      ensures trip.Success? ==> r in old(journeys) && journeys == old(journeys)[r := old(journeys)[r].(since := Some(now))]
      ensures trip.Failure? ==> st.pg == old(st.pg) && st.redis == old(st.redis) && journeys == old(journeys)
    {
      hide Tracked, AllOrdered, Alone;
      ClockKeepsOrder(journeys, clock, r, now);
      clock := now;
      PauseAlone(st.pg, st.redis, d, r, now);
      var error := AssertAssignedDriver(r, d);
      if error.Some? { return Failure(error.value); }
      if r !in st.pg.trips || st.pg.trips[r].status != Started { return Failure(InvalidState); }
      PauseTracked(st.pg.trips, st.redis, journeys, r, now);
      st.pg := st.pg.(trips := st.pg.trips[r := st.pg.trips[r].(status := Paused)]);
      st.redis := st.redis.(pausedAt := st.redis.pausedAt[r := PausedAt(Unix(now), now + PAUSED_AT_TTL)]);
      journeys := journeys[r := journeys[r].(since := Some(now))];
      trip := Load(r);
    }

    /** A rejected resume, by whomever, loses no pause: it leaves everything as it was. */
    method Resume(d: DriverId, r: RideId, now: Instant) returns (trip: Reply<Trip>)
      requires Valid() && clock <= now
      modifies this, st
      ensures Valid() && clock == now
      ensures Alone(old(st.At(Resuming(LoadResume(d, r)))), st.At(Done(if trip.Success? then Finished else Rejected)))
      ensures trip.Success? <==>
        && r in old(st.pg).rides && old(st.pg).rides[r].driver == Some(d)
        && r in old(st.pg).trips && old(st.pg).trips[r].status == Paused
      ensures trip == Failure(NotFound) <==> r !in old(st.pg).rides
      ensures trip == Failure(Forbidden) <==> r in old(st.pg).rides && old(st.pg).rides[r].driver != Some(d)
      ensures trip.Success? ==> var row := old(st.pg).trips[r];
        && trip.value == row.(status := Started, pausedSeconds := row.pausedSeconds + PauseEndedAt(old(st.redis), r, now))
        && st.pg == old(st.pg).(trips := old(st.pg).trips[r := trip.value])
        && st.redis == old(st.redis).(pausedAt := old(st.redis).pausedAt - {r})
      ensures trip.Success? ==> r in old(journeys) && journeys == old(journeys)[r := old(journeys)[r].Resumed(now)]
      ensures trip.Failure? ==> st.pg == old(st.pg) && st.redis == old(st.redis) && journeys == old(journeys)
    {
      hide Tracked, AllOrdered, Alone;
      ClockKeepsOrder(journeys, clock, r, now);
      clock := now;
      ResumeAlone(st.pg, st.redis, d, r, now);
      var error := AssertAssignedDriver(r, d);
      if error.Some? { return Failure(error.value); }
      var elapsed := ConsumePause(r, now);
      hide Elapsed, PauseEndedAt;
      if r !in st.pg.trips || st.pg.trips[r].status != Paused {
        OnlyPausedHaveKeys(st.pg.trips, old(st.redis), journeys, r);
        return Failure(InvalidState);
      }
      var row := st.pg.trips[r];
      st.pg := st.pg.(trips := st.pg.trips[r := row.(status := Started, pausedSeconds := row.pausedSeconds + elapsed)]);
      ResumeTracked(old(st.pg).trips, old(st.redis), journeys, r, now);
      journeys := journeys[r := journeys[r].Resumed(now)];
      trip := Load(r);
    }

    /** The metered distance, else the quoted one, at the quoted surge. */
    method PriceBill(b: Bill, now: Instant) returns (bill: Bill)
      requires drivers.st == st && b.q in st.pg.quotes
      modifies st`redis
      ensures Alone(old(st.At(Ending(LoadPrice(b)))), st.At(Ending(CommitEnd(bill))))
      ensures st.redis == old(st.redis).(dist := old(st.redis).dist - {b.r})
      ensures MetresBilled(old(st.redis), b.r, st.pg.quotes[b.q].distanceM, bill.distanceM)
      ensures var metered := MeteredDistance(old(st.redis), b.r);
        bill == b.(endedAt := now, surgeX100 := st.pg.quotes[b.q].surgeX100,
                   distanceM := if metered.Some? then metered.value else st.pg.quotes[b.q].distanceM)
    {
      hide Alone;
      PriceAlone(st.pg, st.redis, b, now);
      var quote := st.pg.quotes[b.q];
      var distance, ok := drivers.ReadAndClearTripDistance(b.r);
      if !ok { distance := quote.distanceM; }
      return b.(endedAt := now, surgeX100 := quote.surgeX100, distanceM := distance);
    }

    /** The ride and trip rows of an end, with the pause in flight folded in. */
    method GatherTimes(d: DriverId, r: RideId, now: Instant) returns (bill: Reply<Bill>)
      requires HasStatus(st.pg, r, InProgress) ==> r in st.pg.trips
      modifies st`redis
      ensures Alone(old(st.At(Ending(LoadEnding(d, r)))), st.At(if bill.Success? then Ending(LoadPrice(bill.value)) else REJECTED))
      ensures bill.Success? <==>
        r in st.pg.rides && st.pg.rides[r].driver == Some(d) && st.pg.rides[r].status == InProgress
      ensures bill == Failure(NotFound) <==> r !in st.pg.rides
      ensures bill == Failure(Forbidden) <==> r in st.pg.rides && st.pg.rides[r].driver != Some(d)
      ensures bill.Success? ==> bill.value == TimesOf(st.pg, old(st.redis), d, r, now)
      ensures st.redis == if bill.Success? && st.pg.trips[r].status == Paused then TakePausedAt(old(st.redis), r) else old(st.redis)
    {
      hide Alone;
      TimesAlone(st.pg, st.redis, d, r, now);
      if r !in st.pg.rides { return Failure(NotFound); }
      var ride := st.pg.rides[r];
      if ride.driver != Some(d) { return Failure(Forbidden); }
      if ride.status != InProgress { return Failure(InvalidState); }
      var payBy := if ride.payBy.Some? then ride.payBy.value else Cash;
      if r !in st.pg.trips { return Failure(InvalidState); }
      var trip := st.pg.trips[r];
      var b := Bill(d, r, ride.quote, ride.tier, payBy, trip.startedAt, trip.pausedSeconds, 0, 0, 0);
      if trip.status == Paused {
        var elapsed := ConsumePause(r, now);
        b := b.(pausedSeconds := b.pausedSeconds + elapsed);
      }
      return Success(b);
    }

    /** Everything an end reads before its transaction. */
    method GatherBill(d: DriverId, r: RideId, now: Instant) returns (bill: Reply<Bill>)
      requires drivers.st == st && Inv(st.pg)
      modifies st`redis
      ensures Alone(old(st.At(Ending(LoadEnding(d, r)))), st.At(if bill.Success? then Ending(CommitEnd(bill.value)) else REJECTED))
      ensures bill.Success? <==>
        r in st.pg.rides && st.pg.rides[r].driver == Some(d) && st.pg.rides[r].status == InProgress
      ensures bill == Failure(NotFound) <==> r !in st.pg.rides
      ensures bill == Failure(Forbidden) <==> r in st.pg.rides && st.pg.rides[r].driver != Some(d)
      ensures bill.Success? ==> BillOf(st.pg, old(st.redis), d, r, now, bill.value)
      ensures bill.Success? ==> r !in st.redis.dist
      ensures bill.Success? ==>
        st.redis.pausedAt == if st.pg.trips[r].status == Paused then old(st.redis).pausedAt - {r} else old(st.redis).pausedAt
      ensures bill.Failure? ==> st.redis == old(st.redis)
    {
      if HasStatus(st.pg, r, InProgress) {
        LedgerTheorems.SecondGuardsNeverFail(st.pg, r, now);
        QuoteOnFile(st.pg, r);
      }
      hide Inv, Alone, BillOf;
      ghost var k := st.redis;
      bill := GatherTimes(d, r, now);
      if bill.Success? {
        ghost var times := st.At(Ending(LoadPrice(bill.value)));
        var b := PriceBill(bill.value, now);
        hide TimesOf, MeteredDistance;
        TimesMakeBill(st.pg, k, d, r, now, b);
        Joined(old(st.At(Ending(LoadEnding(d, r)))), times, st.At(Ending(CommitEnd(b))));
        bill := Success(b);
      }
    }

    /** The transaction of an end: ride, trip, driver and payment together. */
    method CommitBill(b: Bill, newId: PaymentId) returns (error: Option<Error>)
      modifies st`pg
      ensures st.pg == Apply(old(st.pg), EndTx(b, newId))
      ensures error == if Ledger.Ok(old(st.pg), EndTx(b, newId)) then None else Some(InvalidState)
      ensures error.None? <==>
        && b.r in old(st.pg).rides && old(st.pg).rides[b.r].status == InProgress
        && b.r in old(st.pg).trips && old(st.pg).trips[b.r].status != Ended && newId !in old(st.pg).payments
      ensures st.pg == if error.Some? then old(st.pg) else Paid(old(st.pg), b, FinalFare(Rates(b.tier), b.distanceM,
        ChargedSeconds(b.startedAt, b.endedAt, b.pausedSeconds), b.surgeX100), newId)
      ensures Alone(old(st.At(Ending(CommitEnd(b)))),
                    st.At(if error.None? then Releasing(LoadDriver(b.d), Uncaching(b.r, FINISHED)) else REJECTED))
    {
      CommitAlone(st.pg, st.redis, b, newId);
      hide Alone, ReceiptOf;
      var fare := FinalFare(Rates(b.tier), b.distanceM, ChargedSeconds(b.startedAt, b.endedAt, b.pausedSeconds), b.surgeX100);
      var tx := st.pg;
      if b.r !in tx.rides || tx.rides[b.r].status != InProgress {
        return Some(InvalidState);
      }
      tx := Logged(tx, Moved(b.r, InProgress, Completed));
      tx := tx.(rides := tx.rides[b.r := tx.rides[b.r].(
        status := Completed, fareTotal := Some(fare.total), updatedAt := b.endedAt)]);
      if b.r !in tx.trips || tx.trips[b.r].status == Ended {
        return Some(InvalidState);
      }
      tx := tx.(trips := tx.trips[b.r := tx.trips[b.r].(
        status := Ended, endedAt := Some(Column(b.endedAt)), pausedSeconds := b.pausedSeconds,
        distanceM := Some(b.distanceM), fare := Some(fare))]);
      if b.d in tx.drivers && tx.drivers[b.d].status == OnTrip {
        tx := tx.(drivers := tx.drivers[b.d := tx.drivers[b.d].(status := Available)]);
      }
      if newId in tx.payments {
        return Some(InvalidState);
      }
      tx := tx.(payments := tx.payments[newId := Payment(b.r, fare.total, b.payBy, Pending, None, 0, b.endedAt)]);
      st.pg := tx;
      return None;
    }

    /** Ends a trip in progress for its driver: the fare is that of the journey, charged
        for the time driven to within a second for each pause and one more. */
    method End(d: DriverId, r: RideId, newId: PaymentId, now: Instant) returns (trip: Reply<Trip>)
      requires Valid() && clock <= now && Inv(st.pg) && newId !in st.pg.payments
      modifies st, `clock
      ensures Valid() && clock == now
      ensures Alone(old(st.At(Ending(LoadEnding(d, r)))), st.At(Done(if trip.Success? then Finished else Rejected)))
      ensures trip.Success? <==>
        && r in old(st.pg).rides && old(st.pg).rides[r].driver == Some(d) && old(st.pg).rides[r].status == InProgress
      ensures trip == Failure(NotFound) <==> r !in old(st.pg).rides
      ensures trip == Failure(Forbidden) <==> r in old(st.pg).rides && old(st.pg).rides[r].driver != Some(d)
      ensures trip.Success? ==> EndedAs(old(st.pg), old(st.redis), st.pg, d, r, newId, now) && st.pg.trips[r] == trip.value
      ensures trip.Success? ==> r !in st.redis.dist && r !in st.redis.pausedAt && r !in st.redis.cache
      ensures trip.Success? && d in st.pg.drivers ==> d !in st.redis.marker
      ensures trip.Success? ==> r in journeys && BilledForJourney(st.pg, r, journeys[r], now, trip.value)
      ensures trip.Success? ==> ChargedFairly(journeys[r], now, ChargeOf(journeys[r], now))
      ensures trip.Failure? ==> st.pg == old(st.pg) && st.redis == old(st.redis)
    {
      hide Tracked, AllOrdered, Alone, ChargedFairly, BillOf, FareOf, ChargeOf, FinalFare, EndedAs, EndTx;
      ClockKeepsOrder(journeys, clock, r, now);
      clock := now;
      ghost var db, k := st.pg, st.redis;
      var bill := GatherBill(d, r, now);
      if bill.Failure? {
        return Failure(bill.error);
      }
      var b := bill.value;
      EndIsOk(db, k, d, r, now, b, newId);
      hide Inv, Ledger.Ok, Apply;
      BillIsForJourney(db, k, journeys, d, r, now, b);
      EndApplies(db, b, newId);
      EndsAs(db, k, d, r, now, b, newId);
      ghost var ending := st.At(Ending(CommitEnd(b)));
      Complete(b, newId);
      Joined(old(st.At(Ending(LoadEnding(d, r)))), ending, st.At(FINISHED));
      EndTracked(db.trips, k, journeys, r, st.pg.trips[r]);
      if db.trips[r].status != Paused { OnlyPausedHaveKeys(db.trips, k, journeys, r); }
      FairCharge(journeys, r, now);
      trip := Load(r);
    }

    /** Commits a bill whose guards hold; then the driver goes back to the pool and the
        cache entry goes. */
    method Complete(b: Bill, newId: PaymentId)
      requires drivers.st == st && Ledger.Ok(st.pg, EndTx(b, newId))
      modifies st
      ensures Alone(old(st.At(Ending(CommitEnd(b)))), st.At(FINISHED))
      ensures st.pg == Apply(old(st.pg), EndTx(b, newId))
      ensures st.redis.pausedAt == old(st.redis).pausedAt && st.redis.dist == old(st.redis).dist
      ensures b.r !in st.redis.cache && (b.d in st.pg.drivers ==> b.d !in st.redis.marker)
    {
      hide FareOf, Alone, Apply, Ledger.Ok;
      ghost var s0 := st.At(Ending(CommitEnd(b)));
      var _ := CommitBill(b, newId);
      ghost var s := st.At(Releasing(LoadDriver(b.d), Uncaching(b.r, FINISHED)));
      var _ := drivers.Release(b.d, Uncaching(b.r, FINISHED));
      Joined(s0, s, st.At(Uncaching(b.r, FINISHED)));
      ghost var t := Next(s0, st.At(Uncaching(b.r, FINISHED)), QUIET);
      st.redis := st.redis.(cache := st.redis.cache - {b.r});
    }
  }

  /** A start run alone, whether or not it succeeds. */
  lemma StartAlone(db: Db, k: Keys, d: DriverId, r: RideId, otp: string, now: Instant)
    ensures var s0 := Solo(db, k, Starting(LoadStart(d, r, otp)));
      if && r in db.rides && db.rides[r].driver == Some(d) && db.rides[r].status == Arrived
         && db.rides[r].otp == Some(otp) && r !in db.trips
      then Alone(s0, Solo(Begun(db, r, now), k.(dist := k.dist - {r}, cache := k.cache - {r}), FINISHED))
      else Alone(s0, Solo(db, k, REJECTED))
  {
    hide Alone, StepAlone;
    var s0 := Solo(db, k, Starting(LoadStart(d, r, otp)));
    Here(s0);
    StartingAlone(s0, LoadStart(d, r, otp), QUIET);
    var s := Next(s0, s0, QUIET);
    if MayStart(db, d, r, otp) {
      StartingAlone(s, CommitStart(d, r), QUIET.(now := now));
      StartApplies(db, d, r, otp, now);
      hide Apply, Ledger.Ok;
      s := Next(s0, s, QUIET.(now := now));
      if r !in db.trips { StartClears(s0, s, r); }
    }
  }

  lemma StartApplies(db: Db, d: DriverId, r: RideId, otp: string, now: Instant)
    requires MayStart(db, d, r, otp)
    ensures r in db.rides && (Ledger.Ok(db, StartTrip(r, now)) <==> r !in db.trips)
    ensures Apply(db, StartTrip(r, now)) == if r in db.trips then db else Begun(db, r, now)
  {
  }

  lemma StartClears(s0: Solo, s: Solo, r: RideId)
    requires Alone(s0, s) && s.proc == Starting(ResetDist(r))
    ensures Alone(s0, Solo(s.db, s.keys.(dist := s.keys.dist - {r}, cache := s.keys.cache - {r}), FINISHED))
  {
    hide Alone, StepAlone;
    StartingAlone(s, ResetDist(r), QUIET);
    var t := Next(s0, s, QUIET);
    if r in s.keys.dist {
      StartingAlone(t, ClearStartDist(r), QUIET);
      t := Next(s0, t, QUIET);
    } else {
      assert s.keys.dist - {r} == s.keys.dist;
    }
    StartingAlone(t, UncacheStarted(r), QUIET);
    var u := Next(s0, t, QUIET);
  }

  lemma EndsAs(db: Db, k: Keys, d: DriverId, r: RideId, now: Instant, b: Bill, newId: PaymentId)
    requires BillOf(db, k, d, r, now, b) && Ledger.Ok(db, EndTx(b, newId))
    ensures EndedAs(db, k, Apply(db, EndTx(b, newId)), d, r, newId, now)
  {
    hide FinalFare, Ledger.Ok, Apply;
    PaysBill(db, b, newId);
    BillFields(db, k, d, r, now, b);
    hide BillOf, Paid;
  }

  lemma BillFields(db: Db, k: Keys, d: DriverId, r: RideId, now: Instant, b: Bill)
    requires BillOf(db, k, d, r, now, b)
    ensures b.r == r && b.tier == db.rides[r].tier && b.endedAt == now
  {
  }

  lemma PaysBill(db: Db, b: Bill, newId: PaymentId)
    requires Ledger.Ok(db, EndTx(b, newId))
    ensures Apply(db, EndTx(b, newId)) == Paid(db, b, FareOf(b), newId)
  {
    EffectPays(db, b, FareOf(b), newId);
    hide FareOf, EndEffect, Paid, SuccessEffect, AssignEffect, CancelEffect;
  }

  lemma EffectPays(db: Db, b: Bill, fare: Breakdown, newId: PaymentId)
    requires HasStatus(db, b.r, InProgress) && b.r in db.trips
    ensures EndEffect(db, b.r, b.d, newId, b.payBy, b.endedAt, b.pausedSeconds, b.distanceM, fare) == Paid(db, b, fare, newId)
  {
    var row := db.rides[b.r].(status := Completed, updatedAt := b.endedAt);
    var moved := db.(rides := db.rides[b.r := row], log := db.log + [Moved(b.r, InProgress, Completed)]);
    assert MoveEffect(db, b.r, Completed, b.endedAt) == moved;
    hide MoveEffect;
    assert moved.rides[b.r := row.(fareTotal := Some(fare.total))] == db.rides[b.r := row.(fareTotal := Some(fare.total))];
  }

  lemma TimesMakeBill(db: Db, k: Keys, d: DriverId, r: RideId, now: Instant, b: Bill)
    requires r in db.rides && db.rides[r].status == InProgress && r in db.trips && db.rides[r].quote in db.quotes
    requires var quote := db.quotes[db.rides[r].quote];
      && b == TimesOf(db, k, d, r, now).(endedAt := now, surgeX100 := quote.surgeX100, distanceM := b.distanceM)
      && MetresBilled(k, r, quote.distanceM, b.distanceM)
    ensures BillOf(db, k, d, r, now, b)
  {
    hide MetresBilled;
  }

  lemma TimesAlone(db: Db, k: Keys, d: DriverId, r: RideId, now: Instant)
    requires HasStatus(db, r, InProgress) ==> r in db.trips
    ensures var s0 := Solo(db, k, Ending(LoadEnding(d, r)));
      if DrivenBy(db, r, d) && db.rides[r].status == InProgress
      then Alone(s0, Solo(db, if db.trips[r].status == Paused then TakePausedAt(k, r) else k,
                          Ending(LoadPrice(TimesOf(db, k, d, r, now)))))
      else Alone(s0, Solo(db, k, REJECTED))
  {
    hide Alone, StepAlone, Elapsed, TakePausedAt;
    var s0 := Solo(db, k, Ending(LoadEnding(d, r)));
    Here(s0);
    EndingAlone(s0, LoadEnding(d, r), QUIET);
    var s := Next(s0, s0, QUIET);
    if DrivenBy(db, r, d) && db.rides[r].status == InProgress {
      var b := s.proc.end.b;
      EndingAlone(s, LoadTrip(b), QUIET);
      s := Next(s0, s, QUIET);
      if db.trips[r].status == Paused {
        EndingAlone(s, FoldPause(s.proc.end.b), QUIET.(now := now));
        s := Next(s0, s, QUIET.(now := now));
      }
    }
  }

  lemma PriceAlone(db: Db, k: Keys, b: Bill, now: Instant)
    requires b.q in db.quotes
    ensures var metered := MeteredDistance(k, b.r);
      Alone(Solo(db, k, Ending(LoadPrice(b))), Solo(db, ClearDist(k, b.r), Ending(CommitEnd(
        b.(endedAt := now, surgeX100 := db.quotes[b.q].surgeX100,
           distanceM := if metered.Some? then metered.value else db.quotes[b.q].distanceM)))))
  {
    hide Alone, StepAlone;
    var s0 := Solo(db, k, Ending(LoadPrice(b)));
    Here(s0);
    EndingAlone(s0, LoadPrice(b), QUIET.(now := now));
    var s := Next(s0, s0, QUIET.(now := now));
    EndingAlone(s, ReadDist(s.proc.end.b), QUIET);
    s := Next(s0, s, QUIET);
    if b.r in k.dist {
      EndingAlone(s, ClearEndDist(s.proc.end.b), QUIET);
      s := Next(s0, s, QUIET);
    } else {
      assert k.dist - {b.r} == k.dist;
    }
  }

  /** A resume run alone: by whoever is not the driver nothing happens, and by the driver the
      key of a pause is consumed first. */
  lemma ResumeAlone(db: Db, k: Keys, d: DriverId, r: RideId, now: Instant)
    ensures var s0, taken := Solo(db, k, Resuming(LoadResume(d, r))), TakePausedAt(k, r);
      if !DrivenBy(db, r, d) then Alone(s0, Solo(db, k, REJECTED))
      else if r !in db.trips || db.trips[r].status != Paused then Alone(s0, Solo(db, taken, REJECTED))
      else Alone(s0, Solo(db.(trips := db.trips[r := db.trips[r].(
             status := Started, pausedSeconds := db.trips[r].pausedSeconds + Elapsed(k, r, now))]), taken, FINISHED))
  {
    hide Alone, StepAlone, Elapsed, TakePausedAt;
    var s0 := Solo(db, k, Resuming(LoadResume(d, r)));
    Here(s0);
    ResumingAlone(s0, LoadResume(d, r), QUIET);
    var s := Next(s0, s0, QUIET);
    if DrivenBy(db, r, d) {
      ResumingAlone(s, TakePause(d, r), QUIET.(now := now));
      s := Next(s0, s, QUIET.(now := now));
      ResumingAlone(s, CommitResume(d, r, Elapsed(k, r, now)), QUIET);
      s := Next(s0, s, QUIET);
    }
  }

  lemma PauseAlone(db: Db, k: Keys, d: DriverId, r: RideId, now: Instant)
    ensures var s0 := Solo(db, k, Pausing(LoadPause(d, r)));
      if DrivenBy(db, r, d) && r in db.trips && db.trips[r].status == Started
      then Alone(s0, Solo(db.(trips := db.trips[r := db.trips[r].(status := Paused)]), SetPausedAt(k, r, now), FINISHED))
      else Alone(s0, Solo(db, k, REJECTED))
  {
    hide Alone, StepAlone, SetPausedAt;
    var s0 := Solo(db, k, Pausing(LoadPause(d, r)));
    Here(s0);
    PausingAlone(s0, LoadPause(d, r), QUIET);
    var s := Next(s0, s0, QUIET);
    if DrivenBy(db, r, d) {
      PausingAlone(s, CommitPause(d, r), QUIET);
      s := Next(s0, s, QUIET);
      if r in db.trips && db.trips[r].status == Started {
        PausingAlone(s, MarkPaused(r), QUIET.(now := now));
        s := Next(s0, s, QUIET.(now := now));
      }
    }
  }

  /** The commit of a bill is one step of the request run alone. */
  lemma CommitAlone(db: Db, k: Keys, b: Bill, newId: PaymentId)
    ensures Alone(Solo(db, k, Ending(CommitEnd(b))), Solo(Apply(db, EndTx(b, newId)), k,
      if Ledger.Ok(db, EndTx(b, newId)) then Releasing(LoadDriver(b.d), Uncaching(b.r, FINISHED)) else REJECTED))
  {
    hide Ledger.Ok, Apply, FareOf, Alone;
    var s0, i := Solo(db, k, Ending(CommitEnd(b))), QUIET.(newId := newId);
    Here(s0);
    EndingAlone(s0, CommitEnd(b), i);
    hide StepAlone;
    var s := Next(s0, s0, i);
  }

  lemma EndIsOk(db: Db, k: Keys, d: DriverId, r: RideId, now: Instant, b: Bill, newId: PaymentId)
    requires Inv(db) && BillOf(db, k, d, r, now, b) && newId !in db.payments
    ensures Ledger.Ok(db, EndTx(b, newId)) && b.r == r && b.d == d && db.trips[r].status != Ended
    ensures b.tier == db.rides[r].tier && db.rides[r].quote in db.quotes
    ensures b.surgeX100 == db.quotes[db.rides[r].quote].surgeX100
  {
  }

  /** What an ended trip is billed, in terms of what really happened on it. */
  ghost predicate BilledForJourney(db: Db, r: RideId, j: Journey, now: Instant, trip: Trip) {
    && r in db.rides && db.rides[r].quote in db.quotes && trip.distanceM.Some?
    && trip.fare == Some(FinalFare(Rates(db.rides[r].tier), trip.distanceM.value, ChargeOf(j, now), db.quotes[db.rides[r].quote].surgeX100))
  }

  lemma BillIsForJourney(db: Db, k: Keys, journeys: map<RideId, Journey>, d: DriverId, r: RideId, now: Instant, b: Bill)
    requires Tracked(db.trips, k.pausedAt, journeys) && BillOf(db, k, d, r, now, b) && db.trips[r].status != Ended
    ensures r in journeys && FareOf(b) == FinalFare(Rates(b.tier), b.distanceM, ChargeOf(journeys[r], now), b.surgeX100)
  {
    PauseIsWorth(db.trips, k, journeys, r, now);
    hide Tracked, FinalFare, Elapsed, MeteredDistance, FoldedSeconds;
  }

  lemma EndApplies(db: Db, b: Bill, newId: PaymentId)
    requires Ledger.Ok(db, EndTx(b, newId))
    ensures var db' := Apply(db, EndTx(b, newId));
      && db'.quotes == db.quotes && b.r in db'.rides && db'.rides[b.r].quote == db.rides[b.r].quote
      && db'.rides[b.r].tier == db.rides[b.r].tier
      && b.r in db'.trips && db'.trips == db.trips[b.r := db'.trips[b.r]] && db'.trips[b.r].status == Ended
      && db'.trips[b.r].distanceM == Some(b.distanceM) && db'.trips[b.r].fare == Some(FareOf(b))
  {
  }

  lemma FairCharge(journeys: map<RideId, Journey>, r: RideId, now: Instant)
    requires AllOrdered(journeys, now) && r in journeys
    ensures ChargedFairly(journeys[r], now, ChargeOf(journeys[r], now))
  {
    var j := journeys[r];
    assert Ordered(j, now);
    ChargeNearNetTime(j.began, j.PausesAt(now), now);
  }

  function EndTx(b: Bill, newId: PaymentId): Tx {
    EndTrip(b.r, b.d, newId, b.payBy, b.endedAt, b.pausedSeconds, b.distanceM, FareOf(b))
  }

  // ---- everybody else leaves trips alone ----

  predicate TripFree(p: Proc) {
    match p
    case Starting(_) => false
    case Pausing(_) => false
    case Resuming(_) => false
    case Ending(_) => false
    case Offering(_, after) => TripFree(after)
    case Releasing(_, after) => TripFree(after)
    case Uncaching(_, after) => TripFree(after)
    case _ => true
  }

  predicate SparesTrips(tx: Option<Tx>) {
    tx.Some? ==> !tx.value.StartTrip? && !tx.value.PauseTrip? && !tx.value.ResumeTrip? && !tx.value.EndTrip?
  }

  ghost predicate LeavesTrips(k: Keys, a: Act) {
    a.keys.pausedAt == k.pausedAt && SparesTrips(a.tx) && TripFree(a.next)
  }

  lemma CreateLeaves(db: Db, k: Keys, pc: CreatePc, i: Input)
    ensures LeavesTrips(k, CreateStep(db, k, pc, i))
  {
  }

  lemma OfferLeaves(k: Keys, pc: OfferPc, after: Proc, i: Input)
    requires TripFree(after)
    ensures LeavesTrips(k, OfferStep(k, pc, after, i))
  {
    hide OfferStep;
    OfferStepOffersOnly(k, pc, after, i);
  }

  lemma AcceptLeaves(db: Db, k: Keys, pc: AcceptPc, i: Input)
    ensures LeavesTrips(k, AcceptStep(db, k, pc, i))
  {
  }

  lemma DeclineLeaves(db: Db, k: Keys, pc: DeclinePc)
    ensures LeavesTrips(k, DeclineStep(db, k, pc))
  {
  }

  lemma SweepLeaves(db: Db, k: Keys, pc: SweepPc, i: Input)
    ensures LeavesTrips(k, SweepStep(db, k, pc, i))
  {
  }

  lemma ToggleLeaves(db: Db, k: Keys, pc: AvailabilityPc)
    ensures LeavesTrips(k, ToggleStep(db, k, pc))
  {
  }

  lemma ReleaseLeaves(db: Db, k: Keys, pc: ReleasePc, after: Proc)
    requires TripFree(after)
    ensures LeavesTrips(k, ReleaseStep(db, k, pc, after))
  {
  }

  lemma PingLeaves(k: Keys, pc: PingPc, i: Input)
    ensures LeavesTrips(k, PingStep(k, pc, i))
  {
    hide Ping;
    match pc
    case ReadMirrors(_, _) =>
    case WritePosition(d, pos, mirror, ride, metres) => PingKeysKept(k, d, pos, mirror, ride, metres);
  }

  lemma CancelLeaves(db: Db, k: Keys, pc: CancelPc, i: Input)
    ensures LeavesTrips(k, CancelStep(db, k, pc, i))
  {
    hide Ledger.Ok, Entitled;
    assert TripFree(FINISHED);
  }

  lemma GetLeaves(db: Db, k: Keys, pc: GetPc)
    ensures LeavesTrips(k, GetStep(db, k, pc))
  {
    hide MaySee, ViewOf;
  }

  lemma ProgressLeaves(db: Db, k: Keys, pc: ProgressPc, i: Input)
    ensures LeavesTrips(k, ProgressStep(db, k, pc, i))
  {
    hide Ledger.Ok;
  }

  lemma RegenerateLeaves(db: Db, k: Keys, rider: RiderId, r: RideId, i: Input)
    ensures LeavesTrips(k, Commit(db, k, RegenerateOtp(r, rider, i.otp, i.now), FINISHED, REJECTED))
  {
    hide Ledger.Ok;
  }

  lemma OthersStep(db: Db, k: Keys, p: Proc, i: Input)
    requires TripFree(p)
    ensures LeavesTrips(k, Step(db, k, p, i))
  {
    hide LeavesTrips, CancelStep, GetStep, CreateStep, OfferStep, AcceptStep, DeclineStep, SweepStep, ToggleStep,
      ReleaseStep, PingStep, ProgressStep, Ledger.Ok;
    match p
    case Creating(pc) => CreateLeaves(db, k, pc, i);
    case Offering(pc, after) => OfferLeaves(k, pc, after, i);
    case Accepting(pc) => AcceptLeaves(db, k, pc, i);
    case Declining(pc) => DeclineLeaves(db, k, pc);
    case Sweeping(pc) => SweepLeaves(db, k, pc, i);
    case Toggling(pc) => ToggleLeaves(db, k, pc);
    case Releasing(pc, after) => ReleaseLeaves(db, k, pc, after);
    case Pinging(pc) => PingLeaves(k, pc, i);
    case Triggering(_) => PaymentsLeave(db, k, p, i);
    case Confirming(_) => PaymentsLeave(db, k, p, i);
    case Done(_) => LastLeaves(db, k, p, i);
    case Uncaching(_, _) => LastLeaves(db, k, p, i);
    case Cancelling(pc) => CancelLeaves(db, k, pc, i);
    case Getting(pc) => GetLeaves(db, k, pc);
    case Progressing(pc) => ProgressLeaves(db, k, pc, i);
    case Regenerating(rider, r) => RegenerateLeaves(db, k, rider, r, i);
  }

  lemma PaymentsLeave(db: Db, k: Keys, p: Proc, i: Input)
    requires p.Triggering? || p.Confirming?
    ensures LeavesTrips(k, Step(db, k, p, i))
  {
    hide Ledger.Ok, LatestPayment;
  }

  lemma LastLeaves(db: Db, k: Keys, p: Proc, i: Input)
    requires TripFree(p) && (p.Done? || p.Uncaching?)
    ensures LeavesTrips(k, Step(db, k, p, i))
  {
  }

  lemma SparedTrips(db: Db, tx: Tx)
    requires SparesTrips(Some(tx))
    ensures Apply(db, tx).trips == db.trips
  {
    hide ReceiptOf;
  }

  /** Requests other than these four, run alone, change neither a trip nor the key of a
      pause, so the stores go on remembering every journey. */
  lemma {:induction false} OthersLeaveTrips(s: Solo, inputs: seq<Input>)
    requires TripFree(s.proc)
    ensures var t := RunAlone(s, inputs);
      && TripFree(t.proc) && t.db.trips == s.db.trips && t.keys.pausedAt == s.keys.pausedAt
      && forall journeys | Tracked(s.db.trips, s.keys.pausedAt, journeys) :: Tracked(t.db.trips, t.keys.pausedAt, journeys)
  {
    hide Tracked, Step, Apply, SparesTrips, TripFree;
    if inputs != [] {
      var n := |inputs| - 1;
      var t := RunAlone(s, inputs[..n]);
      OthersLeaveTrips(s, inputs[..n]);
      OthersStep(t.db, t.keys, t.proc, inputs[n]);
      var a := Step(t.db, t.keys, t.proc, inputs[n]);
      if a.tx.Some? { SparedTrips(t.db, a.tx.value); }
    }
  }

}
