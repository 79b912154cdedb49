/** The Redis side of ride dispatch: one field per key family, and one function for each
    command or pipeline that writes. Every key may be evicted or expire at any time. */
module Redis {
  import opened Prelude
  import opened Pricing
  import opened RideStates
  import opened TripClock
  import opened Ledger

  /** driver:status:{id} */
  datatype Mirror = Mirror(status: DriverStatus, tier: Tier, city: City)

  datatype Pos = Pos(lat: real, lng: real)

  /** trip:paused_at:{ride}: whole Unix seconds, gone once the clock reaches expiresAt. */
  datatype PausedAt = PausedAt(unix: int, expiresAt: Instant)

  /** The read model of a ride, as cached and returned. */
  datatype View = View(
    id: RideId, rider: RiderId, driver: Option<DriverId>, quote: QuoteId, tier: Tier, status: RideStatus,
    route: Route, payBy: Option<PayBy>, fareTotal: Option<int>, cancelReason: Option<string>,
    card: Option<Card>, createdAt: Instant, updatedAt: Instant)

  datatype Keys = Keys(
    offerDriver: map<DriverId, RideId>,
    offerRide: map<RideId, DriverId>,
    tried: map<RideId, set<DriverId>>,
    mirror: map<DriverId, Mirror>,
    marker: map<DriverId, RideId>,
    last: map<DriverId, Pos>,
    geo: map<(City, DriverId), Pos>,
    dist: map<RideId, real>,
    pausedAt: map<RideId, PausedAt>,
    cache: map<RideId, View>)

  const FLUSHED := Keys(map[], map[], map[], map[], map[], map[], map[], map[], map[], map[])

  // ---- offers ----

  function Lookup<K, V>(m: map<K, V>, k: K): Option<V> {
    if k in m then Some(m[k]) else None
  }

  function Tried(k: Keys, r: RideId): set<DriverId> {
    if r in k.tried then k.tried[r] else {}
  }

  function ClaimOffer(k: Keys, d: DriverId, r: RideId): Keys {
    k.(offerDriver := k.offerDriver[d := r])
  }

  function RecordOffer(k: Keys, r: RideId, d: DriverId): Keys {
    k.(offerRide := k.offerRide[r := d], tried := k.tried[r := Tried(k, r) + {d}])
  }

  function TakeOffer(k: Keys, d: DriverId): Keys {
    k.(offerDriver := k.offerDriver - {d})
  }

  function DropOfferRide(k: Keys, r: RideId): Keys {
    k.(offerRide := k.offerRide - {r})
  }

  // ---- driver mirrors ----

  function MarkOnTrip(k: Keys, d: DriverId, r: RideId, city: City, tier: Tier): Keys {
    k.(geo := k.geo - {(city, d)}, marker := k.marker[d := r], mirror := k.mirror[d := Mirror(OnTrip, tier, city)])
  }

  function ClearMarker(k: Keys, d: DriverId): Keys {
    k.(marker := k.marker - {d})
  }

  function WriteMirror(k: Keys, d: DriverId, m: Mirror): Keys {
    k.(mirror := k.mirror[d := m])
  }

  function GeoAdd(k: Keys, city: City, d: DriverId, pos: Pos): Keys {
    k.(geo := k.geo[(city, d) := pos])
  }

  function GoOffline(k: Keys, d: DriverId, tier: Tier, city: City): Keys {
    WriteMirror(ClearMarker(k.(geo := k.geo - {(city, d)}), d), d, Mirror(Offline, tier, city))
  }

  /** A ping's second round trip; `metres` is the delta to meter, if any. */
  function Ping(k: Keys, d: DriverId, pos: Pos, mirror: Option<Mirror>, ride: Option<RideId>, metres: Option<real>): Keys {
    var moved := k.(last := k.last[d := pos]);
    var pooled := if mirror.Some? && mirror.value.status == Available && mirror.value.city != ""
                  then GeoAdd(moved, mirror.value.city, d, pos) else moved;
    if ride.Some? && metres.Some? then
      pooled.(dist := pooled.dist[ride.value := metres.value + if ride.value in pooled.dist then pooled.dist[ride.value] else 0.0])
    else pooled
  }

  lemma PingKeysKept(k: Keys, d: DriverId, pos: Pos, mirror: Option<Mirror>, ride: Option<RideId>, metres: Option<real>)
    ensures Ping(k, d, pos, mirror, ride, metres).pausedAt == k.pausedAt
    ensures Ping(k, d, pos, mirror, ride, metres).tried == k.tried
    ensures Ping(k, d, pos, mirror, ride, metres).offerDriver == k.offerDriver
  {
    var moved := k.(last := k.last[d := pos]);
    assert moved.pausedAt == k.pausedAt && moved.tried == k.tried && moved.offerDriver == k.offerDriver;
    if mirror.Some? {
      var pooled := GeoAdd(moved, mirror.value.city, d, pos);
      assert pooled.pausedAt == k.pausedAt && pooled.tried == k.tried && pooled.offerDriver == k.offerDriver;
    }
  }

  /** A ping stores the position and meters the ride, wherever else it puts its driver. */
  lemma PingMeters(k: Keys, d: DriverId, pos: Pos, mirror: Option<Mirror>, ride: Option<RideId>, metres: Option<real>)
    ensures Ping(k, d, pos, mirror, ride, metres).last == k.last[d := pos]
    ensures Ping(k, d, pos, mirror, ride, metres).dist ==
      if ride.Some? && metres.Some?
      then k.dist[ride.value := metres.value + if ride.value in k.dist then k.dist[ride.value] else 0.0]
      else k.dist
  {
    var moved := k.(last := k.last[d := pos]);
    assert moved.dist == k.dist;
    if mirror.Some? {
      var pooled := GeoAdd(moved, mirror.value.city, d, pos);
      assert pooled.dist == k.dist && pooled.last == moved.last;
    }
  }

  // ---- trips and rides ----

  function SetPausedAt(k: Keys, r: RideId, now: Instant): Keys {
    k.(pausedAt := k.pausedAt[r := PausedAt(Unix(now), now + PAUSED_AT_TTL)])
  }

  function TakePausedAt(k: Keys, r: RideId): Keys {
    k.(pausedAt := k.pausedAt - {r})
  }

  /** The seconds a consumed pause is worth: none when its key is gone or in the future. */
  function Elapsed(k: Keys, r: RideId, now: Instant): nat {
    if r in k.pausedAt && now < k.pausedAt[r].expiresAt && Unix(now) >= k.pausedAt[r].unix
    then Unix(now) - k.pausedAt[r].unix else 0
  }

  function ClearDist(k: Keys, r: RideId): Keys {
    k.(dist := k.dist - {r})
  }

  /** Metered metres to the nearest whole one, if there are any. */
  function MeteredDistance(k: Keys, r: RideId): Option<int> {
    if r in k.dist && k.dist[r] > 0.0 then Some((k.dist[r] + 0.5).Floor) else None
  }

  function Uncache(k: Keys, r: RideId): Keys {
    k.(cache := k.cache - {r})
  }

  function CardOf(db: Db, driver: Option<DriverId>): Option<Card> {
    if driver.Some? && driver.value in db.drivers then Some(db.drivers[driver.value].card) else None
  }

  /** A ride as loaded straight from Postgres. */
  function ViewOf(db: Db, r: RideId): View
    requires r in db.rides
  {
    var ride := db.rides[r];
    View(r, ride.rider, ride.driver, ride.quote, ride.tier, ride.status, ride.route, ride.payBy,
         ride.fareTotal, ride.cancelReason, CardOf(db, ride.driver), ride.createdAt, ride.updatedAt)
  }

  // ---- losing keys ----

  predicate Submap<K, V(==)>(a: map<K, V>, b: map<K, V>) {
    forall x | x in a :: x in b && a[x] == b[x]
  }

  /** Some keys are gone. */
  predicate Evicted(k: Keys, k': Keys) {
    && Submap(k'.offerDriver, k.offerDriver) && Submap(k'.offerRide, k.offerRide) && Submap(k'.tried, k.tried)
    && Submap(k'.mirror, k.mirror) && Submap(k'.marker, k.marker) && Submap(k'.last, k.last)
    && Submap(k'.geo, k.geo) && Submap(k'.dist, k.dist) && Submap(k'.pausedAt, k.pausedAt)
    && Submap(k'.cache, k.cache)
  }

}
