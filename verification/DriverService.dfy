/** Driver availability, the mirrors the matching engine reads, and location pings. */
module DriverService {
  import opened Prelude
  import opened Pricing
  import opened RideStates
  import opened Ledger
  import opened Redis
  import opened Protocol
  import opened Stores
  import Pings

  // ---- what the commands leave, key by key ----

  /** An available driver: no marker, mirrored, and in the city's pool at a fresh position. */
  ghost function WentAvailable(k: Keys, d: DriverId, tier: Tier, city: City): Keys {
    k.(marker := k.marker - {d}, mirror := k.mirror[d := Mirror(Available, tier, city)],
       geo := if d in k.last then k.geo[(city, d) := k.last[d]] else k.geo)
  }

  /** An offline driver: out of the pool, no marker, mirrored, and any offer held given up. */
  ghost function WentOffline(k: Keys, d: DriverId, tier: Tier, city: City): Keys {
    k.(offerDriver := k.offerDriver - {d},
       offerRide := if d in k.offerDriver then k.offerRide - {k.offerDriver[d]} else k.offerRide,
       geo := k.geo - {(city, d)}, marker := k.marker - {d}, mirror := k.mirror[d := Mirror(Offline, tier, city)])
  }

  /** A released driver: no marker, mirrored as the row is, pooled if available and fresh. */
  ghost function WasReleased(k: Keys, d: DriverId, row: Driver): Keys {
    k.(marker := k.marker - {d}, mirror := k.mirror[d := Mirror(row.status, row.tier, row.city)],
       geo := if row.status == Available && d in k.last then k.geo[(row.city, d) := k.last[d]] else k.geo)
  }

  /** An accepted ping: the position is stored, an available driver is pooled there, and the
      metres since the last position, up to 200 of them, are metered onto the active ride. */
  ghost function WasPinged(k: Keys, metric: Pings.Metric, d: DriverId, pos: Pos): Keys {
    k.(last := k.last[d := pos],
       geo := if d in k.mirror && k.mirror[d].status == Available && k.mirror[d].city != ""
              then k.geo[(k.mirror[d].city, d) := pos] else k.geo,
       dist := if d in k.marker && d in k.last && metric(k.last[d], pos) <= 200.0
               then k.dist[k.marker[d] := metric(k.last[d], pos) + if k.marker[d] in k.dist then k.dist[k.marker[d]] else 0.0]
               else k.dist)
  }

  /** The position is stored, the driver pooled there if the mirror says available, and the
      metres, if any, added to the ride's; nothing else changes. */
  ghost predicate PositionWritten(k: Keys, k': Keys, d: DriverId, pos: Pos, mirror: Option<Mirror>,
                                  ride: Option<RideId>, delta: Option<real>) {
    && k'.last == k.last[d := pos] && k' == k.(last := k'.last, geo := k'.geo, dist := k'.dist)
    && k'.geo == (if mirror.Some? && mirror.value.status == Available && mirror.value.city != ""
                  then k.geo[(mirror.value.city, d) := pos] else k.geo)
    && k'.dist == if ride.Some? && delta.Some?
         then k.dist[ride.value := delta.value + if ride.value in k.dist then k.dist[ride.value] else 0.0] else k.dist
  }

  class Drivers {
    const st: Store
    const metric: Pings.Metric
      // The rate limiter's keys, which only pings use.
    var buckets: map<(DriverId, nat), Pings.Bucket>
    ghost var log: seq<Pings.Event>

    constructor (st: Store, metric: Pings.Metric)
      ensures this.st == st && this.metric == metric && buckets == map[] && log == []
    {
      this.st, this.metric, buckets, log := st, metric, map[], [];
    }

    /** What the ping model sees of the stores at an instant with no ping under way. */
    ghost function Seen(clock: Pings.Instant): Pings.State
      reads this, st
    {
      Pings.State(clock, buckets, st.redis.last, map[], st.redis.dist, log)
    }

    /** Refused exactly for an unknown driver and for one on trip with an active ride. */
    method SetAvailability(d: DriverId, available: bool) returns (error: Option<Error>)
      modifies st
      ensures Alone(old(st.At(Toggling(CommitAvailability(d, available)))),
                    st.At(Done(if error.None? then Finished else Rejected)))
      ensures error == Some(NotFound) <==> d !in old(st.pg).drivers
      ensures error == Some(InvalidState) <==>
        d in old(st.pg).drivers && old(st.pg).drivers[d].status == OnTrip && Busy(old(st.pg), d)
      ensures error == Some(InvalidState) <==>
        && d in old(st.pg).drivers && old(st.pg).drivers[d].status == OnTrip
        && exists r ::
             && r in old(st.pg).rides && old(st.pg).rides[r].driver == Some(d)
             && old(st.pg).rides[r].status in {Requested, Matching, DriverAssigned, DriverArriving, Arrived, InProgress}
      ensures error.None? ==>
        var row := old(st.pg).drivers[d];
        && st.pg == old(st.pg).(drivers := old(st.pg).drivers[d := row.(status := if available then Available else Offline)])
        && st.redis == if available then WentAvailable(old(st.redis), d, row.tier, row.city)
                       else WentOffline(old(st.redis), d, row.tier, row.city)
      ensures error.Some? ==> st.pg == old(st.pg) && st.redis == old(st.redis)
    {
      hide Alone, StepAlone, Busy, WentAvailable, WentOffline;
      BusyDriver(st.pg, d);
      ghost var s0 := st.At(Toggling(CommitAvailability(d, available)));
      ghost var s := s0;
      Here(s0);
      TogglingAlone(s0, CommitAvailability(d, available), QUIET);
      s := Next(s0, s, QUIET);
      var target := if available then Available else Offline;
      if d !in st.pg.drivers {
        return Some(NotFound);
      }
      var row := st.pg.drivers[d];
      if row.status == OnTrip && Busy(st.pg, d) {
        return Some(InvalidState);
      }
      st.pg := st.pg.(drivers := st.pg.drivers[d := row.(status := target)]);
      if available {
        GoAvailable(d, row.tier, row.city);
      } else {
        GoOffline(d, row.tier, row.city);
      }
      Joined(s0, s, st.At(FINISHED));
      return None;
    }

    method GoAvailable(d: DriverId, tier: Tier, city: City)
      modifies st`redis
      ensures Alone(old(st.At(Toggling(ClearStale(d, tier, city)))), st.At(FINISHED))
      ensures st.redis == WentAvailable(old(st.redis), d, tier, city)
    {
      ghost var s0 := st.At(Toggling(ClearStale(d, tier, city)));
      ghost var s := s0;
      Here(s0);
      st.redis := st.redis.(marker := st.redis.marker - {d});
      s := Next(s0, s, QUIET);
      st.redis := st.redis.(mirror := st.redis.mirror[d := Mirror(Available, tier, city)]);
      s := Next(s0, s, QUIET);
      var pos := Lookup(st.redis.last, d);
      s := Next(s0, s, QUIET);
      if pos.None? {
        return;
      }
      st.redis := st.redis.(geo := st.redis.geo[(city, d) := pos.value]);
      s := Next(s0, s, QUIET);
    }

    method GoOffline(d: DriverId, tier: Tier, city: City)
      modifies st`redis
      ensures Alone(old(st.At(Toggling(TakeOutstanding(d, tier, city)))), st.At(FINISHED))
      ensures st.redis == WentOffline(old(st.redis), d, tier, city)
    {
      ghost var s0 := st.At(Toggling(TakeOutstanding(d, tier, city)));
      ghost var s := s0;
      Here(s0);
      var ride := Lookup(st.redis.offerDriver, d);
      st.redis := st.redis.(offerDriver := st.redis.offerDriver - {d});
      s := Next(s0, s, QUIET);
      if ride.Some? {
        st.redis := st.redis.(offerRide := st.redis.offerRide - {ride.value});
        s := Next(s0, s, QUIET);
      }
      st.redis := st.redis.(
        geo := st.redis.geo - {(city, d)},
        marker := st.redis.marker - {d},
        mirror := st.redis.mirror[d := Mirror(Offline, tier, city)]);
      s := Next(s0, s, QUIET);
    }

    /** Called once an assignment has committed. */
    method MarkOnTrip(d: DriverId, r: RideId, city: City, tier: Tier)
      modifies st`redis
      ensures Alone(old(st.At(Accepting(MarkDriver(d, r, city, tier)))), st.At(Accepting(UncacheTaken(d, r))))
      ensures st.redis == old(st.redis).(geo := old(st.redis).geo - {(city, d)}, marker := old(st.redis).marker[d := r],
                                         mirror := old(st.redis).mirror[d := Mirror(OnTrip, tier, city)])
    {
      ghost var s0 := st.At(Accepting(MarkDriver(d, r, city, tier)));
      Here(s0);
      st.redis := st.redis.(
        geo := st.redis.geo - {(city, d)},
        marker := st.redis.marker[d := r],
        mirror := st.redis.mirror[d := Mirror(OnTrip, tier, city)]);
      ghost var s := Next(s0, s0, QUIET);
    }

    /** Called once a ride has ended or been cancelled; `after` is what the caller does next. */
    method Release(d: DriverId, ghost after: Proc) returns (error: Option<Error>)
      modifies st`redis
      ensures Alone(old(st.At(Releasing(LoadDriver(d), after))), st.At(after))
      ensures error.None? <==> d in st.pg.drivers
      ensures st.redis.pausedAt == old(st.redis).pausedAt
      ensures st.redis == if d in st.pg.drivers then WasReleased(old(st.redis), d, st.pg.drivers[d]) else old(st.redis)
    {
      ghost var s0 := st.At(Releasing(LoadDriver(d), after));
      ghost var s := s0;
      Here(s0);
      s := Next(s0, s, QUIET);
      if d !in st.pg.drivers {
        return Some(NotFound);
      }
      var row := st.pg.drivers[d];
      st.redis := st.redis.(
        marker := st.redis.marker - {d},
        mirror := st.redis.mirror[d := Mirror(row.status, row.tier, row.city)]);
      var pos := Lookup(st.redis.last, d);
      s := Next(s0, s, QUIET);
      if row.status != Available || pos.None? {
        return None;
      }
      st.redis := st.redis.(geo := st.redis.geo[(row.city, d) := pos.value]);
      s := Next(s0, s, QUIET);
      return None;
    }

    /** The metres metered since trip start, if any, to the nearest whole one. */
    method ReadAndClearTripDistance(r: RideId) returns (metres: int, ok: bool)
      modifies st`redis
      ensures st.redis == old(st.redis).(dist := old(st.redis).dist - {r})
      ensures (if ok then Some(metres) else None) == MeteredDistance(old(st.redis), r)
      ensures ok <==> r in old(st.redis).dist && old(st.redis).dist[r] > 0.0
      ensures ok ==> -0.5 < metres as real - old(st.redis).dist[r] <= 0.5
    {
      if r !in st.redis.dist {
        return 0, false;
      }
      var raw := st.redis.dist[r];
      st.redis := st.redis.(dist := st.redis.dist - {r});
      if raw <= 0.0 {
        return 0, false;
      }
      return (raw + 0.5).Floor, true;
    }

    /** The first round trip counts the ping under the second its request read. */
    method CountPing(d: DriverId, readAt: Pings.Instant, ranAt: Pings.Instant) returns (count: nat)
      modifies `buckets, `log
      ensures count == Pings.Incr(old(Seen(ranAt)), (d, readAt / 1000))
      ensures var key := (d, readAt / 1000);
        && count == 1 + (if key in old(buckets) && ranAt < old(buckets)[key].expiresAt then old(buckets)[key].count else 0)
        && buckets == old(buckets)[key := Pings.Bucket(count, ranAt + 2000)]
      ensures buckets == old(buckets)[(d, readAt / 1000) := Pings.Bucket(count, ranAt + Pings.RATE_BUCKET_TTL)]
      ensures log == old(log) + [Pings.Attempt(Pings.Token(d, readAt / 1000, count), ranAt)]
    {
      var key := (d, readAt / 1000);
      count := 1 + if key in buckets && ranAt < buckets[key].expiresAt then buckets[key].count else 0;
      buckets := buckets[key := Pings.Bucket(count, ranAt + Pings.RATE_BUCKET_TTL)];
      log := log + [Pings.Attempt(Pings.Token(d, readAt / 1000, count), ranAt)];
    }

    /** The second one stores the position, pools an available driver and meters the ride. */
    method WritePosition(d: DriverId, pos: Pos, mirror: Option<Mirror>, ride: Option<RideId>, delta: Option<real>)
      modifies st`redis
      ensures st.redis == Ping(old(st.redis), d, pos, mirror, ride, delta)
      ensures PositionWritten(old(st.redis), st.redis, d, pos, mirror, ride, delta)
    {
      st.redis := st.redis.(last := st.redis.last[d := pos]);
      if mirror.Some? && mirror.value.status == Available && mirror.value.city != "" {
        st.redis := st.redis.(geo := st.redis.geo[(mirror.value.city, d) := pos]);
      }
      if ride.Some? && delta.Some? {
        var before := if ride.value in st.redis.dist then st.redis.dist[ride.value] else 0.0;
        st.redis := st.redis.(dist := st.redis.dist[ride.value := before + delta.value]);
      }
    }

    /** The request reads its clock at `readAt`; Redis runs its first commands at `ranAt`. */
    method UpdateLocation(d: DriverId, pos: Pos, readAt: Pings.Instant, ranAt: Pings.Instant) returns (error: Option<Error>)
      modifies `buckets, `log, st`redis
      ensures Alone(old(st.At(Pinging(ReadMirrors(d, pos)))), st.At(Done(if error.None? then Finished else Rejected)))
      ensures error == if Pings.Incr(old(Seen(ranAt)), (d, readAt / 1000)) <= Pings.MAX_PINGS_PER_SEC
                       then None else Some(RateLimited)
      ensures Seen(ranAt) == Pings.PingAlone(metric, old(Seen(ranAt)), d, readAt, pos, Lookup(old(st.redis).marker, d))
      ensures var key := (d, readAt / 1000);
        error.Some? <==> key in old(buckets) && ranAt < old(buckets)[key].expiresAt && old(buckets)[key].count >= 3
      ensures st.redis == if error.None? then WasPinged(old(st.redis), metric, d, pos) else old(st.redis)
    {
      hide Ping, Pings.PingAlone, Pings.Incr, Alone, StepAlone, WasPinged, PositionWritten;
      ghost var seen, k := Seen(ranAt), st.redis;
      var mirror, ride, prev := Lookup(st.redis.mirror, d), Lookup(st.redis.marker, d), Lookup(st.redis.last, d);
      var count := CountPing(d, readAt, ranAt);
      if count > Pings.MAX_PINGS_PER_SEC {
        PingRuns(st.pg, k, d, pos, None);
        PingIsRefused(metric, seen, d, readAt, pos, ride);
        return Some(RateLimited);
      }
      var delta := None;
      if prev.Some? {
        var (metres, counts) := Pings.MeteredPingDelta(metric, prev.value, pos);
        if counts { delta := Some(metres); }
      }
      PingRuns(st.pg, k, d, pos, delta);
      WritePosition(d, pos, mirror, ride, delta);
      ghost var token := Pings.Token(d, readAt / 1000, count);
      if ride.Some? && delta.Some? {
        log := log + [Pings.Landed(ride.value, token)];
      }
      PingWrites(k, st.redis, metric, d, pos, mirror, ride, delta);
      PingIsSeen(metric, seen, k, d, readAt, pos, mirror, ride, delta);
      return None;
    }
  }

  lemma PingIsRefused(metric: Pings.Metric, s: Pings.State, d: DriverId, readAt: Pings.Instant, pos: Pos, ride: Option<RideId>)
    requires s.pending == map[] && Pings.Incr(s, (d, readAt / 1000)) > Pings.MAX_PINGS_PER_SEC
    ensures var token := Pings.Token(d, readAt / 1000, Pings.Incr(s, (d, readAt / 1000)));
      Pings.PingAlone(metric, s, d, readAt, pos, ride) == s.(
        buckets := s.buckets[(d, readAt / 1000) := Pings.Bucket(token.ordinal, s.clock + Pings.RATE_BUCKET_TTL)],
        log := s.log + [Pings.Attempt(token, s.clock)])
  {
  }

  /** An accepted ping leaves the position and the metres that the ping model says. */
  lemma PingIsSeen(metric: Pings.Metric, s: Pings.State, k: Keys, d: DriverId, readAt: Pings.Instant, pos: Pos,
                   mirror: Option<Mirror>, ride: Option<RideId>, delta: Option<real>)
    requires s.pending == map[] && s.last == k.last && s.dist == k.dist
    requires delta == if d in k.last && metric(k.last[d], pos) <= Pings.MAX_PING_DELTA_M
                      then Some(metric(k.last[d], pos)) else None
    requires Pings.Incr(s, (d, readAt / 1000)) <= Pings.MAX_PINGS_PER_SEC
    ensures var token := Pings.Token(d, readAt / 1000, Pings.Incr(s, (d, readAt / 1000)));
      var after := Ping(k, d, pos, mirror, ride, delta);
      Pings.PingAlone(metric, s, d, readAt, pos, ride) == s.(
        buckets := s.buckets[(d, readAt / 1000) := Pings.Bucket(token.ordinal, s.clock + Pings.RATE_BUCKET_TTL)],
        last := after.last, dist := after.dist,
        log := s.log + [Pings.Attempt(token, s.clock)]
             + if ride.Some? && delta.Some? then [Pings.Landed(ride.value, token)] else [])
  {
    PingMeters(k, d, pos, mirror, ride, delta);
    hide Ping;
    var first := Pings.FirstTrip(s, Pings.Ping(0, d, readAt, pos, ride));
    assert first.pending - {0} == map[];
    assert first.log + [] == first.log;
  }

  lemma PingRuns(db: Db, k: Keys, d: DriverId, pos: Pos, delta: Option<real>)
    requires delta.Some? ==> d in k.last
    ensures Alone(Solo(db, k, Pinging(ReadMirrors(d, pos))), Solo(db, k, REJECTED))
    ensures Alone(Solo(db, k, Pinging(ReadMirrors(d, pos))),
                  Solo(db, Ping(k, d, pos, Lookup(k.mirror, d), Lookup(k.marker, d), delta), FINISHED))
  {
    hide Ping, Alone, StepAlone;
    var s0, refuse, count := Solo(db, k, Pinging(ReadMirrors(d, pos))), QUIET.(accepted := false), QUIET.(metres := delta);
    Here(s0);
    PingingAlone(s0, ReadMirrors(d, pos), refuse);
    var refused := Next(s0, s0, refuse);
    PingingAlone(s0, ReadMirrors(d, pos), count);
    var counted := Next(s0, s0, count);
    PingingAlone(counted, Protocol.WritePosition(d, pos, Lookup(k.mirror, d), Lookup(k.marker, d), delta), QUIET);
    var written := Next(s0, counted, QUIET);
  }

  lemma PingWrites(k: Keys, k': Keys, metric: Pings.Metric, d: DriverId, pos: Pos, mirror: Option<Mirror>,
                   ride: Option<RideId>, delta: Option<real>)
    requires mirror == Lookup(k.mirror, d) && ride == Lookup(k.marker, d)
    requires delta == if d in k.last && metric(k.last[d], pos) <= Pings.MAX_PING_DELTA_M
                      then Some(metric(k.last[d], pos)) else None
    requires PositionWritten(k, k', d, pos, mirror, ride, delta)
    ensures k' == WasPinged(k, metric, d, pos)
  {
  }

  lemma BusyDriver(db: Db, d: DriverId)
    ensures Busy(db, d) <==> exists r ::
      && r in db.rides && db.rides[r].driver == Some(d)
      && db.rides[r].status in {Requested, Matching, DriverAssigned, DriverArriving, Arrived, InProgress}
  {
  }

}
