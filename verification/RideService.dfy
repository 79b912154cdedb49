/** Rides: booking, reading, cancelling, the assigned driver's progress and new codes.
    Every status write goes through one guarded funnel. */
module RideService {
  import opened Prelude
  import opened RideStates
  import opened TripClock
  import opened Ledger
  import opened Redis
  import opened Protocol
  import opened Stores
  import opened DriverService
  import opened OfferLoop

  /** What a status write does besides, in the same transaction. */
  datatype Mutation = Nothing | FreeItsDriver(reason: Option<string>)

  /** What one call of the funnel commits. */
  function Funnelled(db: Db, r: RideId, to: RideStatus, now: Instant, mutate: Mutation): Db
    requires r in db.rides
  {
    match mutate
    case Nothing => MoveEffect(db, r, to, now)
    case FreeItsDriver(reason) => CancelEffect(db, r, to, reason, now)
  }

  /** The view of a ride that a read finds: the cached one, else the row's. */
  function Held(db: Db, k: Keys, r: RideId): Option<View> {
    if r in k.cache then Some(k.cache[r]) else if r in db.rides then Some(ViewOf(db, r)) else None
  }

  /** The driver rows, with the given driver available if it was on trip. */
  ghost function Freed(drivers: map<DriverId, Driver>, driver: Option<DriverId>): map<DriverId, Driver> {
    if driver.Some? && driver.value in drivers && drivers[driver.value].status == OnTrip
    then drivers[driver.value := drivers[driver.value].(status := Available)] else drivers
  }

  /** No quote, trip, payment, reference or receipt is written. */
  predicate SameButRidesAndDrivers(a: Db, b: Db) {
    && b.quotes == a.quotes && b.trips == a.trips && b.payments == a.payments && b.issued == a.issued
    && b.receipts == a.receipts
  }

  class Rides {
    const st: Store
    const drivers: Drivers
    const offers: Offers

    constructor (st: Store, drivers: Drivers, offers: Offers)
      requires drivers.st == st && offers.st == st
      ensures this.st == st && this.drivers == drivers && this.offers == offers && Wired()
    {
      this.st, this.drivers, this.offers := st, drivers, offers;
    }

    /** All services share one store. */
    predicate Wired() {
      drivers.st == st && offers.st == st
    }

    method Load(r: RideId) returns (view: Reply<View>)
      ensures view == if r in st.pg.rides then Success(ViewOf(st.pg, r)) else Failure(NotFound)
      ensures view.Success? ==>
        var (v, ride) := (view.value, st.pg.rides[r]);
        && v.id == r && v.rider == ride.rider && v.driver == ride.driver && v.quote == ride.quote && v.tier == ride.tier
        && v.status == ride.status && v.route == ride.route && v.payBy == ride.payBy && v.fareTotal == ride.fareTotal
        && v.cancelReason == ride.cancelReason && v.createdAt == ride.createdAt && v.updatedAt == ride.updatedAt
        && (ride.driver.None? ==> v.card == None)
        && (ride.driver.Some? && ride.driver.value in st.pg.drivers ==>
              v.card == Some(st.pg.drivers[ride.driver.value].card))
    {
      if r !in st.pg.rides {
        return Failure(NotFound);
      }
      var ride := st.pg.rides[r];
      var card := None;
      if ride.driver.Some? && ride.driver.value in st.pg.drivers {
        card := Some(st.pg.drivers[ride.driver.value].card);
      }
      return Success(View(r, ride.rider, ride.driver, ride.quote, ride.tier, ride.status, ride.route, ride.payBy,
                          ride.fareTotal, ride.cancelReason, card, ride.createdAt, ride.updatedAt));
    }

    method CachedLoad(r: RideId, ghost actor: Actor) returns (view: Reply<View>)
      modifies st`redis
      ensures Alone(old(st.At(Getting(ReadCached(r, actor)))),
                    st.At(if view.Success? then ShowTo(view.value, actor) else REJECTED))
      ensures view == match Held(st.pg, old(st.redis), r) case Some(v) => Success(v) case None => Failure(NotFound)
      ensures r in old(st.redis).cache ==> view == Success(old(st.redis).cache[r]) && st.redis == old(st.redis)
      ensures r !in old(st.redis).cache ==>
        if r !in st.pg.rides then view == Failure(NotFound) && st.redis == old(st.redis)
        else view == Success(ViewOf(st.pg, r)) && st.redis == old(st.redis).(cache := old(st.redis).cache[r := view.value])
    {
      ghost var s0 := st.At(Getting(ReadCached(r, actor)));
      Here(s0);
      ghost var s := Next(s0, s0, QUIET);
      if r in st.redis.cache {
        return Success(st.redis.cache[r]);
      }
      s := Next(s0, s, QUIET);
      view := Load(r);
      if view.Success? {
        st.redis := st.redis.(cache := st.redis.cache[r := view.value]);
        s := Next(s0, s, QUIET);
      }
    }

    method Get(r: RideId, actor: Actor) returns (view: Reply<View>)
      modifies st`redis
      ensures Alone(old(st.At(Getting(ReadCached(r, actor)))),
                    st.At(Done(if view.Success? then Shown(view.value) else Rejected)))
      ensures view == match Held(st.pg, old(st.redis), r)
                      case None => Failure(NotFound)
                      case Some(v) => if MaySee(v, actor) then Success(v) else Failure(Forbidden)
      ensures view.Success? ==>
        actor == ByRider(view.value.rider) || (actor.ByDriver? && view.value.driver == Some(actor.driver))
      ensures st.redis == if r in old(st.redis).cache || r !in st.pg.rides then old(st.redis)
                          else old(st.redis).(cache := old(st.redis).cache[r := ViewOf(st.pg, r)])
      ensures view == Failure(NotFound) <==> r !in old(st.redis).cache && r !in st.pg.rides
      ensures view == Failure(Forbidden) ==>
        var v := if r in old(st.redis).cache then old(st.redis).cache[r] else ViewOf(st.pg, r);
        actor != ByRider(v.rider) && !(actor.ByDriver? && v.driver == Some(actor.driver))
    {
      view := CachedLoad(r, actor);
      if view.Success? && !MaySee(view.value, actor) {
        view := Failure(Forbidden);
      }
    }

    /** The funnel: moves ride r from one of the given statuses, or changes nothing. */
    method UpdateStatus(r: RideId, from: seq<RideStatus>, to: RideStatus, now: Instant, mutate: Mutation)
      returns (ok: bool, driver: Option<DriverId>)
      modifies st
      ensures ok <==> r in old(st.pg).rides && old(st.pg).rides[r].status in from
      ensures !ok ==> st.pg == old(st.pg) && st.redis == old(st.redis)
      ensures ok ==> st.pg == Funnelled(old(st.pg), r, to, now, mutate) && st.redis == Uncache(old(st.redis), r)
      ensures ok ==> st.redis == old(st.redis).(cache := old(st.redis).cache - {r})
      ensures ok ==> driver == if mutate.Nothing? then None else old(st.pg).rides[r].driver
      ensures ok ==>
        var ride := old(st.pg).rides[r];
        && st.pg.rides == old(st.pg).rides[r := ride.(status := to, updatedAt := now,
             cancelReason := if mutate.Nothing? then ride.cancelReason else mutate.reason)]
        && st.pg.drivers == Freed(old(st.pg).drivers, driver)
        && SameButRidesAndDrivers(old(st.pg), st.pg)
    {
      driver := None;
      var tx := st.pg;
      if r !in tx.rides || tx.rides[r].status !in from {
        return false, None;
      }
      tx := Logged(tx, Moved(r, tx.rides[r].status, to));
      tx := tx.(rides := tx.rides[r := tx.rides[r].(status := to, updatedAt := now)]);
      match mutate {
        case Nothing =>
        case FreeItsDriver(reason) =>
          tx := tx.(rides := tx.rides[r := tx.rides[r].(cancelReason := reason)]);
          driver := tx.rides[r].driver;
          if driver.Some? && driver.value in tx.drivers && tx.drivers[driver.value].status == OnTrip {
            tx := tx.(drivers := tx.drivers[driver.value := tx.drivers[driver.value].(status := Available)]);
          }
      }
      st.pg := tx;
      st.redis := st.redis.(cache := st.redis.cache - {r});
      ok := true;
    }

    method CheckQuote(b: Booking, now: Instant) returns (quote: Reply<Quote>)
      ensures quote.Success? <==> QuoteUsable(st.pg, b, now)
      ensures quote.Success? ==> quote.value == st.pg.quotes[b.q]
      ensures match quote
        case Success(q) => b.q in st.pg.quotes && q.rider == b.rider && now <= q.expiresAt && b.tier in q.prices
        case Failure(error) =>
          if b.q !in st.pg.quotes then error == QuoteNotFound
          else if st.pg.quotes[b.q].rider != b.rider then error == QuoteNotOwned
          else if st.pg.quotes[b.q].expiresAt < now then error == QuoteExpired
          else error == TierUnavailable && b.tier !in st.pg.quotes[b.q].prices
    {
      if b.q !in st.pg.quotes { return Failure(QuoteNotFound); }
      var found := st.pg.quotes[b.q];
      if found.rider != b.rider { return Failure(QuoteNotOwned); }
      if now > found.expiresAt { return Failure(QuoteExpired); }
      if b.tier !in found.prices { return Failure(TierUnavailable); }
      return Success(found);
    }

    /** Creates the ride and moves it to matching. */
    method Book(b: Booking, quote: Quote, newId: RideId, now: Instant) returns (error: Option<Error>)
      requires newId !in st.pg.rides && b.q in st.pg.quotes && quote == st.pg.quotes[b.q] && b.tier in quote.prices
      modifies st
      ensures Alone(old(st.At(Creating(InsertRow(b)))), st.At(if error.None? then Creating(LoadForMatch(newId)) else REJECTED))
      ensures error == if RiderBusy(old(st.pg), b.rider) then Some(AlreadyActive) else None
      ensures error.Some? <==> exists r ::
        && r in old(st.pg).rides && old(st.pg).rides[r].rider == b.rider
        && old(st.pg).rides[r].status in {Requested, Matching, DriverAssigned, DriverArriving, RideStatus.Arrived, InProgress}
      ensures error.None? ==>
        st.pg.rides == old(st.pg).rides[newId := Ride(b.rider, b.q, b.tier, quote.route, Matching, None, None,
                                                      Some(b.payBy), Some(quote.prices[b.tier]), None, now, now)]
      ensures SameButRidesAndDrivers(old(st.pg), st.pg) && st.pg.drivers == old(st.pg).drivers
      ensures error.Some? ==> st.pg == old(st.pg)
      ensures st.redis == if error.Some? then old(st.redis) else old(st.redis).(cache := old(st.redis).cache - {newId})
    {
      BusyRider(st.pg, b.rider);
      BookAlone(st.pg, st.redis, b, newId, now);
      hide RiderBusy, Alone;
      if RiderBusy(st.pg, b.rider) {
        return Some(AlreadyActive);
      }
      st.pg := st.pg.(rides := st.pg.rides[newId := Ride(
        b.rider, b.q, b.tier, quote.route, Requested, None, None, Some(b.payBy), Some(quote.prices[b.tier]), None, now, now)]);
      var ok, _ := UpdateStatus(newId, [Requested], Matching, now, Nothing);
      return None;
    }

    /** Books a quote: the ride is created, moved to matching, and a first offer is tried. */
    method Create(b: Booking, newId: RideId, now: Instant, nearby: Search -> seq<DriverId>) returns (view: Reply<View>)
      requires Wired() && newId !in st.pg.rides
      requires Answers(st.redis, offers.km, nearby)
      modifies st
      ensures Alone(old(st.At(Creating(LoadQuote(b)))), st.At(Done(if view.Success? then Finished else Rejected)))
      ensures view.Success? <==> QuoteUsable(old(st.pg), b, now) && !RiderBusy(old(st.pg), b.rider)
      ensures view == Failure(AlreadyActive) <==> QuoteUsable(old(st.pg), b, now) && RiderBusy(old(st.pg), b.rider)
      ensures view.Success? ==>
        var quote := old(st.pg).quotes[b.q];
        && quote.rider == b.rider && now <= quote.expiresAt
        && st.pg.rides == old(st.pg).rides[newId := Ride(b.rider, b.q, b.tier, quote.route, Matching, None, None,
             Some(b.payBy), Some(quote.prices[b.tier]), None, now, now)]
        && view.value == View(newId, b.rider, None, b.q, b.tier, Matching, quote.route, Some(b.payBy),
             Some(quote.prices[b.tier]), None, None, now, now)
      ensures view.Success? ==>
        MatchRequested(st.pg, old(st.redis).(cache := old(st.redis).cache - {newId}), st.redis, newId, nearby)
      ensures SameButRidesAndDrivers(old(st.pg), st.pg) && st.pg.drivers == old(st.pg).drivers
      ensures view.Failure? ==> st.pg == old(st.pg) && st.redis == old(st.redis)
    {
      hide MatchRequested;
      ghost var s0 := st.At(Creating(LoadQuote(b)));
      Here(s0);
      ghost var s := Next(s0, s0, QUIET.(now := now));
      var quote := CheckQuote(b, now);
      if quote.Failure? {
        return Failure(quote.error);
      }
      var error := Book(b, quote.value, newId, now);
      Joined(s0, s, st.At(if error.None? then Creating(LoadForMatch(newId)) else REJECTED));
      if error.Some? {
        return Failure(error.value);
      }
      s := st.At(Creating(LoadForMatch(newId)));
      SamePool(old(st.redis), st.redis, offers.km, nearby);
      var _ := offers.RequestMatch(newId, nearby, Creating(LoadForMatch(newId)));
      Joined(s0, s, st.At(FINISHED));
      view := Load(newId);
    }

    /** Frees whichever driver the ride has when the cancellation commits. */
    method Cancel(r: RideId, actor: Actor, reason: Option<string>, now: Instant) returns (view: Reply<View>)
      requires Wired()
      modifies st
      ensures Alone(old(st.At(Cancelling(LoadOwners(r, actor, reason)))),
                    st.At(Done(if view.Success? then Finished else Rejected)))
      ensures view == Failure(NotFound) <==> r !in old(st.pg).rides
      ensures view == Failure(Forbidden) <==> r in old(st.pg).rides && !Entitled(old(st.pg), r, actor)
      ensures view.Success? <==> Entitled(old(st.pg), r, actor) && Legal(old(st.pg).rides[r].status, CancelTarget(actor))
      ensures view.Success? <==>
        && r in old(st.pg).rides
        && old(st.pg).rides[r].status in {Requested, Matching, DriverAssigned, DriverArriving, RideStatus.Arrived}
        && (actor == ByRider(old(st.pg).rides[r].rider)
            || (actor.ByDriver? && old(st.pg).rides[r].driver == Some(actor.driver)))
      ensures view.Success? ==>
        var ride := old(st.pg).rides[r];
        && st.pg.rides == old(st.pg).rides[r := ride.(cancelReason := reason, updatedAt := now,
             status := if actor.ByDriver? then CancelledByDriver else CancelledByRider)]
        && st.pg.drivers == Freed(old(st.pg).drivers, ride.driver)
        && view.value.status == st.pg.rides[r].status && view.value.cancelReason == reason
      ensures SameButRidesAndDrivers(old(st.pg), st.pg)
      ensures view.Failure? ==> st.pg == old(st.pg) && st.redis == old(st.redis)
    {
      hide Legal, Alone, WasReleased;
      CancellableFrom(if r in st.pg.rides then st.pg.rides[r].status else Expired, CancelTarget(actor));
      CancelAlone(st.pg, st.redis, r, actor, reason, now);
      ghost var s0 := st.At(Cancelling(LoadOwners(r, actor, reason)));
      if r !in st.pg.rides { return Failure(NotFound); }
      var ride := st.pg.rides[r];
      var target;
      match actor {
        case ByRider(rider) =>
          if ride.rider != rider { return Failure(Forbidden); }
          target := CancelledByRider;
        case ByDriver(d) =>
          if ride.driver != Some(d) { return Failure(Forbidden); }
          target := CancelledByDriver;
        case ByNobody => return Failure(Forbidden);
      }
      var from := SourcesFor(target);
      var ok, driver := UpdateStatus(r, from, target, now, FreeItsDriver(reason));
      if !ok {
        return Failure(InvalidState);
      }
      if driver.Some? {
        ghost var s := st.At(Releasing(LoadDriver(driver.value), FINISHED));
        var _ := drivers.Release(driver.value, FINISHED);
        Joined(s0, s, st.At(FINISHED));
      }
      view := Load(r);
    }

    /** Used by the sweeper; `rows` are those it has yet to look at. */
    method Expire(r: RideId, now: Instant, ghost rows: seq<Row>, ghost swept: Instant) returns (error: Option<Error>)
      modifies st
      ensures Alone(old(st.At(Sweeping(ExpireRow(r, rows, swept)))), st.At(Sweeping(NextRow(rows, swept))))
      ensures st.pg == Apply(old(st.pg), MoveRide(r, Matching, Expired, now))
      ensures error == if HasStatus(old(st.pg), r, Matching) then None else Some(InvalidState)
      ensures st.redis == if error.None? then Uncache(old(st.redis), r) else old(st.redis)
      ensures error.None? ==>
        && r in old(st.pg).rides && old(st.pg).rides[r].status == Matching
        && st.pg.rides == old(st.pg).rides[r := old(st.pg).rides[r].(status := RideStatus.Expired, updatedAt := now)]
      ensures error.Some? ==> st.pg == old(st.pg)
    {
      ghost var s0 := st.At(Sweeping(ExpireRow(r, rows, swept)));
      Here(s0);
      ghost var s := Next(s0, s0, QUIET.(now := now));
      var ok, _ := UpdateStatus(r, [Matching], Expired, now, Nothing);
      if !ok {
        return Some(InvalidState);
      }
      s := Next(s0, s, QUIET);
      return None;
    }

    method Arriving(r: RideId, d: DriverId, now: Instant) returns (view: Reply<View>)
      modifies st
      ensures Alone(old(st.At(Progressing(LoadAssigned(r, d, ToArriving)))),
                    st.At(Done(if view.Success? then Finished else Rejected)))
      ensures view == Failure(NotFound) <==> r !in old(st.pg).rides
      ensures view == Failure(Forbidden) <==> r in old(st.pg).rides && !DrivenBy(old(st.pg), r, d)
      ensures view.Success? <==> DrivenBy(old(st.pg), r, d) && HasStatus(old(st.pg), r, Before(ToArriving))
      ensures view.Success? ==>
        && old(st.pg).rides[r].driver == Some(d) && old(st.pg).rides[r].status == DriverAssigned
        && st.pg.rides == old(st.pg).rides[r := old(st.pg).rides[r].(status := DriverArriving, updatedAt := now)]
      ensures SameButRidesAndDrivers(old(st.pg), st.pg) && st.pg.drivers == old(st.pg).drivers
      ensures view.Failure? ==> st.pg == old(st.pg) && st.redis == old(st.redis)
    {
      view := DriverProgress(r, d, ToArriving, now);
    }

    method Arrived(r: RideId, d: DriverId, now: Instant) returns (view: Reply<View>)
      modifies st
      ensures Alone(old(st.At(Progressing(LoadAssigned(r, d, ToArrived)))),
                    st.At(Done(if view.Success? then Finished else Rejected)))
      ensures view == Failure(NotFound) <==> r !in old(st.pg).rides
      ensures view == Failure(Forbidden) <==> r in old(st.pg).rides && !DrivenBy(old(st.pg), r, d)
      ensures view.Success? <==> DrivenBy(old(st.pg), r, d) && HasStatus(old(st.pg), r, Before(ToArrived))
      ensures view.Success? ==>
        && old(st.pg).rides[r].driver == Some(d) && old(st.pg).rides[r].status == DriverArriving
        && st.pg.rides == old(st.pg).rides[r := old(st.pg).rides[r].(status := RideStatus.Arrived, updatedAt := now)]
      ensures SameButRidesAndDrivers(old(st.pg), st.pg) && st.pg.drivers == old(st.pg).drivers
      ensures view.Failure? ==> st.pg == old(st.pg) && st.redis == old(st.redis)
    {
      view := DriverProgress(r, d, ToArrived, now);
    }

    method DriverProgress(r: RideId, d: DriverId, leg: Leg, now: Instant) returns (view: Reply<View>)
      modifies st
      ensures Alone(old(st.At(Progressing(LoadAssigned(r, d, leg)))),
                    st.At(Done(if view.Success? then Finished else Rejected)))
      ensures view == Failure(NotFound) <==> r !in old(st.pg).rides
      ensures view == Failure(Forbidden) <==> r in old(st.pg).rides && !DrivenBy(old(st.pg), r, d)
      ensures view.Success? <==> DrivenBy(old(st.pg), r, d) && HasStatus(old(st.pg), r, Before(leg))
      ensures view.Success? ==>
        && old(st.pg).rides[r].driver == Some(d)
        && st.pg.rides == old(st.pg).rides[r := old(st.pg).rides[r].(status := Beyond(leg), updatedAt := now)]
      ensures SameButRidesAndDrivers(old(st.pg), st.pg) && st.pg.drivers == old(st.pg).drivers
      ensures view.Failure? ==> st.pg == old(st.pg) && st.redis == old(st.redis)
    {
      ghost var s0 := st.At(Progressing(LoadAssigned(r, d, leg)));
      Here(s0);
      ghost var s := Next(s0, s0, QUIET);
      if r !in st.pg.rides { return Failure(NotFound); }
      if st.pg.rides[r].driver != Some(d) { return Failure(Forbidden); }
      s := Next(s0, s, QUIET.(now := now));
      var ok, _ := UpdateStatus(r, [Before(leg)], Beyond(leg), now, Nothing);
      if !ok {
        return Failure(InvalidState);
      }
      s := Next(s0, s, QUIET);
      view := Load(r);
    }

    /** A fresh code, for the ride's rider only, while a driver is assigned and not started. */
    method RegenerateOTP(r: RideId, rider: RiderId, otp: string, now: Instant) returns (code: Reply<string>)
      modifies st`pg
      ensures Alone(old(st.At(Regenerating(rider, r))), st.At(Done(if code.Success? then Finished else Rejected)))
      ensures code == if Ledger.Ok(old(st.pg), RegenerateOtp(r, rider, otp, now)) then Success(otp) else Failure(InvalidState)
      ensures code.Success? <==>
        && r in old(st.pg).rides && old(st.pg).rides[r].rider == rider
        && old(st.pg).rides[r].status in {DriverAssigned, DriverArriving, RideStatus.Arrived}
      ensures code.Success? ==>
        st.pg == old(st.pg).(rides := old(st.pg).rides[r := old(st.pg).rides[r].(otp := Some(otp), updatedAt := now)])
      ensures code.Failure? ==> st.pg == old(st.pg)
    {
      ghost var s0 := st.At(Regenerating(rider, r));
      Here(s0);
      ghost var s := Next(s0, s0, QUIET.(now := now, otp := otp));
      if r !in st.pg.rides || st.pg.rides[r].rider != rider {
        return Failure(InvalidState);
      }
      var ride := st.pg.rides[r];
      if !(ride.status == DriverAssigned || ride.status == DriverArriving || ride.status == RideStatus.Arrived) {
        return Failure(InvalidState);
      }
      st.pg := st.pg.(rides := st.pg.rides[r := ride.(otp := Some(otp), updatedAt := now)]);
      return Success(otp);
    }
  }

  /** The insert and the move to matching are two steps of the request run alone. */
  lemma BookAlone(db: Db, k: Keys, b: Booking, newId: RideId, now: Instant)
    requires newId !in db.rides && b.q in db.quotes && b.tier in db.quotes[b.q].prices
    ensures RiderBusy(db, b.rider) ==> Alone(Solo(db, k, Creating(InsertRow(b))), Solo(db, k, REJECTED))
    ensures !RiderBusy(db, b.rider) ==>
      var inserted := InsertRideEffect(db, newId, b.rider, b.q, b.tier, b.payBy, now);
      Alone(Solo(db, k, Creating(InsertRow(b))),
            Solo(MoveEffect(inserted, newId, Matching, now), Uncache(k, newId), Creating(LoadForMatch(newId))))
  {
    hide StepAlone, RiderBusy, Alone, SearchOf, InsertRideEffect, MoveEffect, Uncache;
    var s0 := Solo(db, k, Creating(InsertRow(b)));
    Here(s0);
    var i := QUIET.(now := now, newId := newId);
    CreatingAlone(s0, InsertRow(b), i);
    var s := Next(s0, s0, i);
    if !RiderBusy(db, b.rider) {
      var inserted := InsertRideEffect(db, newId, b.rider, b.q, b.tier, b.payBy, now);
      assert HasStatus(inserted, newId, Requested) by { InsertedIsRequested(db, b, newId, now); }
      CreatingAlone(s, ToMatching(newId), i);
      s := Next(s0, s, i);
      CreatingAlone(s, UncacheNew(newId), i);
      s := Next(s0, s, i);
    }
  }

  lemma InsertedIsRequested(db: Db, b: Booking, newId: RideId, now: Instant)
    requires b.q in db.quotes && b.tier in db.quotes[b.q].prices
    ensures HasStatus(InsertRideEffect(db, newId, b.rider, b.q, b.tier, b.payBy, now), newId, Requested)
  {
  }

  /** The authorisation and the commit of a cancellation are steps of the request run alone. */
  lemma CancelAlone(db: Db, k: Keys, r: RideId, actor: Actor, reason: Option<string>, now: Instant)
    ensures var s0 := Solo(db, k, Cancelling(LoadOwners(r, actor, reason)));
      if Entitled(db, r, actor) && Legal(db.rides[r].status, CancelTarget(actor)) then
        var driver := db.rides[r].driver;
        Alone(s0, Solo(CancelEffect(db, r, CancelTarget(actor), reason, now), Uncache(k, r),
                       if driver.Some? then Releasing(LoadDriver(driver.value), FINISHED) else FINISHED))
      else Alone(s0, Solo(db, k, REJECTED))
  {
    hide StepAlone, Alone, Legal, Entitled, CancelEffect, Uncache, CancelTarget;
    var s0, i := Solo(db, k, Cancelling(LoadOwners(r, actor, reason))), QUIET.(now := now);
    Here(s0);
    CancellingAlone(s0, LoadOwners(r, actor, reason), i);
    var s := Next(s0, s0, i);
    if Entitled(db, r, actor) {
      assert r in db.rides by { EntitledToRide(db, r, actor); }
      CancellingAlone(s, CommitCancel(r, actor, reason), i);
      s := Next(s0, s, i);
      if Legal(db.rides[r].status, CancelTarget(actor)) {
        CancellingAlone(s, UncacheCancelled(r, db.rides[r].driver), i);
        s := Next(s0, s, i);
      }
    }
  }

  lemma EntitledToRide(db: Db, r: RideId, actor: Actor)
    requires Entitled(db, r, actor)
    ensures r in db.rides
  {
  }

  lemma BusyRider(db: Db, rider: RiderId)
    ensures RiderBusy(db, rider) <==> exists r ::
      && r in db.rides && db.rides[r].rider == rider
      && db.rides[r].status in {Requested, Matching, DriverAssigned, DriverArriving, RideStatus.Arrived, InProgress}
  {
  }

  /** A ride can be cancelled by either side until its trip starts. */
  lemma CancellableFrom(from: RideStatus, to: RideStatus)
    requires to == CancelledByRider || to == CancelledByDriver
    ensures Legal(from, to) <==> from in {Requested, Matching, DriverAssigned, DriverArriving, RideStatus.Arrived}
  {
  }

}
