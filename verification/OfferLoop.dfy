/** The offer loop: search the pool, filter the candidates, claim the first that can be
    claimed. With one matcher at a time on a ride. */
module OfferLoop {
  import opened Prelude
  import opened Pricing
  import opened RideStates
  import opened Ledger
  import opened Redis
  import opened Protocol
  import opened Stores

  const SEARCH_RADIUS_KM := 5.0
  const SEARCH_LIMIT := 10

  /** Distance in kilometres from a ride's pickup. */
  type Kilometres = (Route, Pos) -> real

  /** The pool entry of a candidate. */
  function At(k: Keys, s: Search, d: DriverId): Pos
    requires (s.city, d) in k.geo
  {
    k.geo[(s.city, d)]
  }

  /** What the geo search answers: up to ten drivers of the city's pool within the radius,
      nearest first, and none nearer left out. */
  ghost predicate Found(k: Keys, s: Search, km: Kilometres, members: seq<DriverId>) {
    && |members| <= SEARCH_LIMIT
    && (forall n, m | 0 <= n < m < |members| :: members[n] != members[m])
    && (forall d | d in members :: (s.city, d) in k.geo && km(s.route, At(k, s, d)) <= SEARCH_RADIUS_KM)
    && (forall n, m | 0 <= n < m < |members| :: km(s.route, At(k, s, members[n])) <= km(s.route, At(k, s, members[m])))
    && (forall d | (s.city, d) in k.geo && km(s.route, At(k, s, d)) <= SEARCH_RADIUS_KM && d !in members ::
          |members| == SEARCH_LIMIT
          && forall d' | d' in members :: km(s.route, At(k, s, d')) <= km(s.route, At(k, s, d)))
  }

  /** `nearby` answers every search of the pool. */
  ghost predicate Answers(k: Keys, km: Kilometres, nearby: Search -> seq<DriverId>) {
    forall s :: Found(k, s, km, nearby(s))
  }

  /** A search depends on nothing but the pool. */
  lemma SamePool(k: Keys, k': Keys, km: Kilometres, nearby: Search -> seq<DriverId>)
    requires Answers(k, km, nearby) && k'.geo == k.geo
    ensures Answers(k', km, nearby)
  {
  }

  /** Untried, available, of the tier, with a recent fix, and holding no offer. */
  ghost predicate Claimable(k: Keys, s: Search, d: DriverId) {
    && !(s.r in k.tried && d in k.tried[s.r])
    && d in k.mirror && k.mirror[d].status == Available && k.mirror[d].tier == s.tier
    && d in k.last && d !in k.offerDriver
  }

  /** The offer of a ride to a driver: under both, and the driver among the ride's tried. */
  ghost function Offered(k: Keys, s: Search, d: DriverId): Keys {
    k.(offerDriver := k.offerDriver[d := s.r], offerRide := k.offerRide[s.r := d],
       tried := k.tried[s.r := (if s.r in k.tried then k.tried[s.r] else {}) + {d}])
  }

  /** The n-th member is the first that can be claimed. */
  ghost predicate FirstClaimable(k: Keys, s: Search, members: seq<DriverId>, n: nat) {
    n < |members| && Claimable(k, s, members[n]) && forall m | 0 <= m < n :: !Claimable(k, s, members[m])
  }

  /** One offer-loop step over these members: the first that can be claimed is offered the
      ride, and if none can nothing changes. */
  ghost predicate OfferMade(k: Keys, k': Keys, s: Search, members: seq<DriverId>) {
    || (k' == k && forall d | d in members :: !Claimable(k, s, d))
    || exists n: nat :: FirstClaimable(k, s, members, n) && k' == Offered(k, s, members[n])
  }

  /** One offer-loop step for a ride on file if it is matching. */
  ghost predicate MatchRequested(db: Db, k: Keys, k': Keys, r: RideId, nearby: Search -> seq<DriverId>) {
    if r in db.rides && db.rides[r].status == Matching && db.rides[r].quote in db.quotes then
      var s := Search(r, db.rides[r].tier, db.rides[r].route, db.quotes[db.rides[r].quote].city);
      OfferMade(k, k', s, nearby(s))
    else k' == k
  }

  class Offers {
    const st: Store
    const km: Kilometres

    constructor (st: Store, km: Kilometres)
      ensures this.st == st && this.km == km
    {
      this.st, this.km := st, km;
    }

    method ReadCandidate(d: DriverId) returns (mirror: Option<Mirror>, hasFix: bool)
      ensures mirror == Lookup(st.redis.mirror, d) && hasFix == (d in st.redis.last)
    {
      return Lookup(st.redis.mirror, d), d in st.redis.last;
    }

    method RecordOffer(r: RideId, d: DriverId)
      modifies st`redis
      ensures st.redis == Redis.RecordOffer(old(st.redis), r, d)
    {
      st.redis := st.redis.(
        offerRide := st.redis.offerRide[r := d],
        tried := st.redis.tried[r := Tried(st.redis, r) + {d}]);
    }

    /** Claims driver d, the first of those left, unless d holds another offer. */
    method TryClaim(s: Search, d: DriverId, ghost tried: set<DriverId>, ghost left: seq<DriverId>, ghost after: Proc)
      returns (claimed: bool)
      requires left != [] && left[0] == d
      modifies st`redis
      ensures claimed <==> d !in old(st.redis).offerDriver
      ensures st.redis == if claimed then Offered(old(st.redis), s, d) else old(st.redis)
      ensures Alone(old(st.At(Offering(Claim(s, tried, left), after))),
                    st.At(if claimed then after else Offering(Protocol.ReadCandidate(s, tried, left[1..]), after)))
    {
      ghost var s0 := st.At(Offering(Claim(s, tried, left), after));
      Here(s0);
      ghost var t := Next(s0, s0, QUIET);
      if d in st.redis.offerDriver {
        return false;
      }
      st.redis := st.redis.(offerDriver := st.redis.offerDriver[d := s.r]);
      RecordOffer(s.r, d);
      t := Next(s0, t, QUIET);
      return true;
    }

    /** Claims the first member that can be claimed; changes nothing exactly when none can. */
    method OfferNext(s: Search, members: seq<DriverId>, ghost after: Proc) returns (offered: bool)
      requires Found(st.redis, s, km, members)
      modifies st`redis
      ensures Alone(old(st.At(Offering(FindNearby(s), after))), st.At(after))
      ensures !offered ==> st.redis == old(st.redis) && forall d | d in members :: !Claimable(old(st.redis), s, d)
      ensures offered ==> exists n: nat ::
        FirstClaimable(old(st.redis), s, members, n) && st.redis == Offered(old(st.redis), s, members[n])
      ensures OfferMade(old(st.redis), st.redis, s, members)
    {
      ghost var s0 := st.At(Offering(FindNearby(s), after));
      ghost var t := s0;
      Here(s0);
      t := Next(s0, t, QUIET.(nearby := members));
      var tried := Tried(st.redis, s.r);
      t := Next(s0, t, QUIET);
      for n := 0 to |members|
        invariant st.redis == old(st.redis)
        invariant t == st.At(Offering(Protocol.ReadCandidate(s, tried, members[n..]), after)) && Alone(s0, t)
        invariant forall m | 0 <= m < n :: !Claimable(st.redis, s, members[m])
      {
        var d := members[n];
        assert members[n..][0] == d && members[n..][1..] == members[n + 1..];
        t := Next(s0, t, QUIET);
        if d in tried {
          continue;
        }
        var mirror, hasFix := ReadCandidate(d);
        if !Eligible(mirror, hasFix, s.tier) {
          continue;
        }
        var claimed := TryClaim(s, d, tried, members[n..], after);
        Joined(s0, t, st.At(if claimed then after else Offering(Protocol.ReadCandidate(s, tried, members[n + 1..]), after)));
        if claimed {
          assert FirstClaimable(old(st.redis), s, members, n);
          return true;
        }
        t := st.At(Offering(Protocol.ReadCandidate(s, tried, members[n + 1..]), after));
      }
      t := Next(s0, t, QUIET);
      return false;
    }

    /** Kicks the loop for a ride that is matching; the entry point of a new ride and of a
        declined offer. */
    method RequestMatch(r: RideId, nearby: Search -> seq<DriverId>, ghost entry: Proc) returns (found: bool)
      requires Answers(st.redis, km, nearby)
      requires entry == Creating(LoadForMatch(r)) || entry == Declining(LoadDeclined(r))
      modifies st`redis
      ensures Alone(old(st.At(entry)), st.At(FINISHED))
      ensures found <==> r in st.pg.rides && st.pg.rides[r].quote in st.pg.quotes
      ensures MatchRequested(st.pg, old(st.redis), st.redis, r, nearby)
    {
      ghost var s0 := st.At(entry);
      Here(s0);
      ghost var t := Next(s0, s0, QUIET);
      var s := SearchOf(st.pg, r);
      if s.None? {
        return false;
      }
      if st.pg.rides[r].status == Matching {
        var _ := OfferNext(s.value, nearby(s.value), FINISHED);
        Joined(s0, t, st.At(FINISHED));
      }
      return true;
    }
  }

  // ---- who is offered ----

  /** The driver claimed is the nearest of those in the pool who could be, unless ten
      nearer ones filled the search. */
  lemma ClaimsNearest(k: Keys, s: Search, km: Kilometres, members: seq<DriverId>, n: nat, d: DriverId)
    requires Found(k, s, km, members) && FirstClaimable(k, s, members, n)
    requires (s.city, d) in k.geo && km(s.route, At(k, s, d)) <= 5.0 && Claimable(k, s, d)
    ensures n < 10 && km(s.route, At(k, s, members[n])) <= km(s.route, At(k, s, d))
  {
  }

  /** Nobody is claimed exactly when nobody returned can be; with fewer than ten returned,
      nobody in the pool within the radius can. */
  lemma NoneMeansNone(k: Keys, s: Search, km: Kilometres, members: seq<DriverId>, d: DriverId)
    requires Found(k, s, km, members) && |members| < 10
    requires forall m | m in members :: !Claimable(k, s, m)
    requires (s.city, d) in k.geo && km(s.route, At(k, s, d)) <= 5.0
    ensures !Claimable(k, s, d)
  {
  }

}
