/** Location pings: the per-second rate limit and the metered trip distance. A ping is
    two Redis round trips, and round trips of any number of pings interleave. Times are
    milliseconds; positions are points under a distance that is never negative. */
module Pings {
  import opened Prelude
  import Ledger
  import Redis

  type DriverId = Ledger.DriverId
  type RideId = Ledger.RideId
  type Pos = Redis.Pos
  type Instant = nat

  type Metric = (Pos, Pos) -> real

  const MAX_PINGS_PER_SEC := 3
  const RATE_BUCKET_TTL := 2000
  const MAX_PING_DELTA_M := 200.0

  /** A rate counter and the instant it expires. */
  datatype Bucket = Bucket(count: nat, expiresAt: Instant)

  /** One counted ping: driver, clock second, and what INCR returned. */
  datatype Token = Token(driver: DriverId, sec: nat, ordinal: nat)

  /** A ping between its round trips: what the first one read. */
  datatype Pending = Pending(token: Token, pos: Pos, ride: Option<RideId>, prev: Option<Pos>)

  /** `at` is the instant the first round trip ran. */
  datatype Event =
    | Attempt(token: Token, at: Instant)
    | Landed(ride: RideId, token: Token)
    | Cleared(ride: RideId)

  datatype State = State(
    clock: Instant,
    buckets: map<(DriverId, nat), Bucket>,
    last: map<DriverId, Pos>,
    pending: map<nat, Pending>,
    dist: map<RideId, real>,
    log: seq<Event>)

  const EMPTY := State(0, map[], map[], map[], map[], [])

  datatype Action =
    | Wait(millis: nat)
      // First round trip, run now for a clock reading taken at `readAt`; `marker` is the
      // driver:ride key it finds.
    | Ping(id: nat, driver: DriverId, readAt: Instant, pos: Pos, marker: Option<RideId>)
    | Land(id: nat)         // second round trip
    | Clear(ride: RideId)   // trip:dist is deleted, or expires
    | Forget(driver: DriverId) // driver:last expires

  predicate Live(s: State, key: (DriverId, nat)) {
    key in s.buckets && s.clock < s.buckets[key].expiresAt
  }

  /** What INCR returns for a key at the current instant. */
  function Incr(s: State, key: (DriverId, nat)): (n: nat)
    ensures n >= 1
  {
    if Live(s, key) then s.buckets[key].count + 1 else 1
  }

  predicate Accepted(t: Token) {
    t.ordinal <= MAX_PINGS_PER_SEC
  }

  /** The metres a ping adds, unless the jump is a teleport. */
  function MeteredPingDelta(metric: Metric, prev: Pos, pos: Pos): (real, bool) {
    var d := metric(prev, pos);
    (d, d <= MAX_PING_DELTA_M)
  }

  function FirstTrip(s: State, a: Action): State
    requires a.Ping?
  {
    var key := (a.driver, a.readAt / 1000);
    var token := Token(a.driver, a.readAt / 1000, Incr(s, key));
    var s' := s.(buckets := s.buckets[key := Bucket(token.ordinal, s.clock + RATE_BUCKET_TTL)],
                 log := s.log + [Attempt(token, s.clock)]);
    if !Accepted(token) then s'
    else
      var prev := if a.driver in s.last then Some(s.last[a.driver]) else None;
      s'.(pending := s.pending[a.id := Pending(token, a.pos, a.marker, prev)])
  }

  function SecondTrip(metric: Metric, s: State, id: nat): State
    requires id in s.pending
  {
    var p := s.pending[id];
    var s' := s.(pending := s.pending - {id}, last := s.last[p.token.driver := p.pos]);
    if p.ride.None? || p.prev.None? then s'
    else
      var (d, counts) := MeteredPingDelta(metric, p.prev.value, p.pos);
      if !counts then s'
      else
        var before := if p.ride.value in s.dist then s.dist[p.ride.value] else 0.0;
        s'.(dist := s.dist[p.ride.value := before + d], log := s.log + [Landed(p.ride.value, p.token)])
  }

  function Next(metric: Metric, s: State, a: Action): State {
    match a
    case Wait(millis) => s.(clock := s.clock + millis)
    case Ping(id, _, _, _, _) => if id in s.pending then s else FirstTrip(s, a)
    case Land(id) => if id in s.pending then SecondTrip(metric, s, id) else s
    case Clear(ride) => s.(dist := s.dist - {ride}, log := s.log + [Cleared(ride)])
    case Forget(driver) => s.(last := s.last - {driver})
  }

  function Run(metric: Metric, actions: seq<Action>): State {
    if actions == [] then EMPTY
    else Next(metric, Run(metric, actions[..|actions| - 1]), actions[|actions| - 1])
  }

  /** A ping whose two round trips nothing comes between. */
  function PingAlone(metric: Metric, s: State, driver: DriverId, readAt: Instant, pos: Pos, marker: Option<RideId>): State {
    Next(metric, Next(metric, s, Ping(0, driver, readAt, pos, marker)), Land(0))
  }

  // ---- counting ----

  /** A driver and a clock second. */
  type Key = (DriverId, nat)

  function KeyOf(t: Token): Key {
    (t.driver, t.sec)
  }

  predicate IsAttempt(e: Event, key: Key) {
    e.Attempt? && KeyOf(e.token) == key
  }

  function Attempts(log: seq<Event>, key: Key): nat {
    if log == [] then 0
    else Attempts(log[..|log| - 1], key) + if IsAttempt(log[|log| - 1], key) then 1 else 0
  }

  function AcceptedPings(log: seq<Event>, key: Key): nat {
    if log == [] then 0
    else
      var e := log[|log| - 1];
      AcceptedPings(log[..|log| - 1], key) + if IsAttempt(e, key) && Accepted(e.token) then 1 else 0
  }

  /** When the latest attempt of the driver and second ran; 0 before the first. */
  function LastAt(log: seq<Event>, key: Key): Instant {
    if log == [] then 0
    else
      var e := log[|log| - 1];
      if IsAttempt(e, key) then e.at else LastAt(log[..|log| - 1], key)
  }

  /** No attempt of the driver and second ran two seconds or more after the one before it. */
  predicate NoGap(log: seq<Event>, key: Key) {
    log == [] ||
    var e, before := log[|log| - 1], log[..|log| - 1];
    && NoGap(before, key)
    && (IsAttempt(e, key) && Attempts(before, key) > 0 ==> e.at < LastAt(before, key) + 2000)
  }

  lemma LogSnoc(log: seq<Event>, e: Event)
    ensures (log + [e])[..|log + [e]| - 1] == log
  {
  }

  // ---- the rate limit ----

  /** The counter of a driver and second counts the attempts since the latest gap, and
      with a gap behind it at least one accepted ping more was let through. */
  predicate CounterFits(s: State, key: Key) {
    var n, accepted := Attempts(s.log, key), AcceptedPings(s.log, key);
    && (n == 0 <==> key !in s.buckets)
    && (n == 0 ==> accepted == 0 && NoGap(s.log, key))
    && LastAt(s.log, key) <= s.clock
    && (n > 0 ==>
          var b := s.buckets[key];
          && b.expiresAt == LastAt(s.log, key) + RATE_BUCKET_TTL && b.count >= 1
          && (if NoGap(s.log, key) then b.count == n && accepted == Min(MAX_PINGS_PER_SEC, n)
              else n > 1 && accepted >= Min(MAX_PINGS_PER_SEC + 1, n) && accepted >= 1 + Min(MAX_PINGS_PER_SEC, b.count)))
  }

  /** What one more entry of the log does to the counts of a driver and second. */
  lemma AttemptSnoc(log: seq<Event>, e: Event, key: Key)
    ensures Attempts(log + [e], key) == Attempts(log, key) + if IsAttempt(e, key) then 1 else 0
    ensures AcceptedPings(log + [e], key) == AcceptedPings(log, key) + if IsAttempt(e, key) && Accepted(e.token) then 1 else 0
    ensures LastAt(log + [e], key) == if IsAttempt(e, key) then e.at else LastAt(log, key)
    ensures NoGap(log + [e], key) ==
      (NoGap(log, key) && (IsAttempt(e, key) && Attempts(log, key) > 0 ==> e.at < LastAt(log, key) + RATE_BUCKET_TTL))
    ensures AllLanded(log + [e], key) == AllLanded(log, key) + if e.Landed? && KeyOf(e.token) == key then 1 else 0
  {
    LogSnoc(log, e);
  }

  /** The token a first round trip draws. */
  function TokenOf(s: State, a: Action): Token
    requires a.Ping?
  {
    Token(a.driver, a.readAt / 1000, Incr(s, (a.driver, a.readAt / 1000)))
  }

  lemma FirstTripFits(s: State, a: Action, key: Key)
    requires a.Ping? && CounterFits(s, key)
    ensures CounterFits(FirstTrip(s, a), key)
  {
    AttemptSnoc(s.log, Attempt(TokenOf(s, a), s.clock), key);
    hide Attempts, AcceptedPings, LastAt, NoGap;
    if key == KeyOf(TokenOf(s, a)) { OwnTripFits(s, a); }
  }

  lemma OwnTripFits(s: State, a: Action)
    requires a.Ping? && CounterFits(s, KeyOf(TokenOf(s, a)))
    ensures CounterFits(FirstTrip(s, a), KeyOf(TokenOf(s, a)))
  {
    AttemptSnoc(s.log, Attempt(TokenOf(s, a), s.clock), KeyOf(TokenOf(s, a)));
    hide Attempts, AcceptedPings, LastAt, NoGap;
  }

  lemma OthersFit(s: State, s': State, e: Event, key: Key)
    requires CounterFits(s, key) && s'.buckets == s.buckets && s'.clock == s.clock
    requires !e.Attempt? && s'.log == s.log + [e]
    ensures CounterFits(s', key)
  {
    AttemptSnoc(s.log, e, key);
    hide Attempts, AcceptedPings, LastAt, NoGap;
  }

  lemma {:induction false} RunFits(metric: Metric, actions: seq<Action>, key: Key)
    ensures CounterFits(Run(metric, actions), key)
  {
    if actions != [] {
      RunFits(metric, actions[..|actions| - 1], key);
      var s, a := Run(metric, actions[..|actions| - 1]), actions[|actions| - 1];
      hide CounterFits;
      NextFits(metric, s, a, key);
    }
  }

  lemma NextFits(metric: Metric, s: State, a: Action, key: Key)
    requires CounterFits(s, key)
    ensures CounterFits(Next(metric, s, a), key)
  {
    match a
    case Wait(_) =>
    case Forget(_) =>
    case Ping(id, _, _, _, _) => if id !in s.pending { FirstTripFits(s, a, key); }
    case Clear(ride) => OthersFit(s, Next(metric, s, a), Cleared(ride), key);
    case Land(id) =>
      if id in s.pending && Next(metric, s, a).log != s.log {
        OthersFit(s, Next(metric, s, a), Landed(s.pending[id].ride.value, s.pending[id].token), key);
      }
  }

  /** Of the pings a driver attempts in a clock second never fewer than the first three
      are accepted, and exactly min(3, attempts) if and only if there were at most three
      or no gap of a bucket lifetime let the counter expire between two of them. */
  lemma RateLimitExact(metric: Metric, actions: seq<Action>, key: Key)
    ensures var log := Run(metric, actions).log;
      && Min(3, Attempts(log, key)) <= AcceptedPings(log, key)
      && (AcceptedPings(log, key) == Min(3, Attempts(log, key)) <==> Attempts(log, key) <= 3 || NoGap(log, key))
  {
    RunFits(metric, actions, key);
    MoreAttempts(Run(metric, actions).log, key);
  }

  lemma {:induction false} MoreAttempts(log: seq<Event>, key: Key)
    ensures AcceptedPings(log, key) <= Attempts(log, key)
  {
    if log != [] { MoreAttempts(log[..|log| - 1], key); }
  }

  /** Every attempt of the driver and second ran in that second or the next. */
  predicate Prompt(log: seq<Event>, key: Key) {
    forall e | e in log && IsAttempt(e, key) :: key.1 * 1000 <= e.at < key.1 * 1000 + 2000
  }

  lemma {:induction false} PromptHasNoGap(log: seq<Event>, key: Key)
    requires Prompt(log, key)
    ensures NoGap(log, key)
    ensures Attempts(log, key) > 0 ==> key.1 * 1000 <= LastAt(log, key)
  {
    if log != [] { PromptHasNoGap(log[..|log| - 1], key); }
  }

  /** So a driver whose pings of a second reach Redis before its counter could have
      expired is held to three, whatever the other drivers do. */
  lemma PromptPingsAreLimited(metric: Metric, actions: seq<Action>, key: Key)
    requires Prompt(Run(metric, actions).log, key)
    ensures var log := Run(metric, actions).log;
      AcceptedPings(log, key) == Min(3, Attempts(log, key))
  {
    PromptHasNoGap(Run(metric, actions).log, key);
    RateLimitExact(metric, actions, key);
  }

  // ---- the metered distance ----

  /** The pings metered onto a ride since its counter was last absent. */
  function Landings(log: seq<Event>, ride: RideId): nat {
    if log == [] then 0
    else
      var before := Landings(log[..|log| - 1], ride);
      match log[|log| - 1]
      case Attempt(_, _) => before
      case Landed(r, _) => if r == ride then before + 1 else before
      case Cleared(r) => if r == ride then 0 else before
  }

  predicate DistanceBounded(s: State, ride: RideId) {
    && (ride in s.dist ==> s.dist[ride] <= MAX_PING_DELTA_M * Landings(s.log, ride) as real)
    && (Landings(s.log, ride) > 0 ==> ride in s.dist)
  }

  lemma LandingSnoc(log: seq<Event>, e: Event, ride: RideId)
    ensures Landings(log + [e], ride) ==
      if e.Landed? && e.ride == ride then Landings(log, ride) + 1
      else if e.Cleared? && e.ride == ride then 0 else Landings(log, ride)
  {
    LogSnoc(log, e);
  }

  /** One landing adds at most 200 metres to its ride. */
  lemma LandBounded(metric: Metric, s: State, id: nat, ride: RideId)
    requires id in s.pending && DistanceBounded(s, ride)
    ensures DistanceBounded(SecondTrip(metric, s, id), ride)
  {
    var p, s' := s.pending[id], SecondTrip(metric, s, id);
    hide Landings;
    if s'.log != s.log {
      LandingSnoc(s.log, Landed(p.ride.value, p.token), ride);
      var before, n := if ride in s.dist then s.dist[ride] else 0.0, Landings(s.log, ride);
      assert before <= MAX_PING_DELTA_M * n as real;
      assert MAX_PING_DELTA_M * (n + 1) as real == MAX_PING_DELTA_M * n as real + MAX_PING_DELTA_M;
    }
  }

  lemma NextBounded(metric: Metric, s: State, a: Action, ride: RideId)
    requires DistanceBounded(s, ride)
    ensures DistanceBounded(Next(metric, s, a), ride)
  {
    hide Landings, Incr;
    match a
    case Ping(_, _, _, _, _) => LandingSnoc(s.log, Attempt(TokenOf(s, a), s.clock), ride);
    case Land(id) => if id in s.pending { LandBounded(metric, s, id, ride); }
    case Clear(r) => LandingSnoc(s.log, Cleared(r), ride);
    case _ =>
  }

  /** The metered distance of a ride is at most 200 metres per ping that landed since the
      counter was last cleared, and there is one if a ping did. */
  lemma {:induction false} MeteredDistanceBound(metric: Metric, actions: seq<Action>, ride: RideId)
    ensures var s := Run(metric, actions);
      && (ride in s.dist ==> s.dist[ride] <= 200.0 * Landings(s.log, ride) as real)
      && (Landings(s.log, ride) > 0 ==> ride in s.dist)
  {
    if actions != [] {
      var n := |actions| - 1;
      MeteredDistanceBound(metric, actions[..n], ride);
      NextBounded(metric, Run(metric, actions[..n]), actions[n], ride);
    }
  }

  /** Those of them that belong to the given driver-seconds. */
  function LandingsIn(log: seq<Event>, ride: RideId, keys: set<Key>): nat {
    if log == [] then 0
    else
      var before := LandingsIn(log[..|log| - 1], ride, keys);
      match log[|log| - 1]
      case Attempt(_, _) => before
      case Landed(r, token) => if r == ride && KeyOf(token) in keys then before + 1 else before
      case Cleared(r) => if r == ride then 0 else before
  }

  /** The driver-seconds they belong to. */
  function Seconds(log: seq<Event>, ride: RideId): set<Key> {
    if log == [] then {}
    else
      var before := Seconds(log[..|log| - 1], ride);
      match log[|log| - 1]
      case Attempt(_, _) => before
      case Landed(r, token) => if r == ride then before + {KeyOf(token)} else before
      case Cleared(r) => if r == ride then {} else before
  }

  /** All pings of a driver and second that ever landed on any ride. */
  function AllLanded(log: seq<Event>, key: Key): nat {
    if log == [] then 0
    else
      var e := log[|log| - 1];
      AllLanded(log[..|log| - 1], key) + if e.Landed? && KeyOf(e.token) == key then 1 else 0
  }

  function PendingOf(s: State, key: Key): set<nat> {
    set id | id in s.pending && KeyOf(s.pending[id].token) == key
  }

  /** Every accepted ping lands at most once. */
  predicate LandsOnce(s: State, key: Key) {
    AllLanded(s.log, key) + |PendingOf(s, key)| <= AcceptedPings(s.log, key)
  }

  lemma FirstTripLandsOnce(s: State, a: Action, key: Key)
    requires a.Ping? && a.id !in s.pending && LandsOnce(s, key)
    ensures LandsOnce(FirstTrip(s, a), key)
  {
    hide AllLanded, AcceptedPings;
    AttemptSnoc(s.log, Attempt(TokenOf(s, a), s.clock), key);
    hide Incr, Attempts, LastAt, NoGap;
    if Accepted(TokenOf(s, a)) && KeyOf(TokenOf(s, a)) == key {
      assert PendingOf(FirstTrip(s, a), key) == PendingOf(s, key) + {a.id};
    } else {
      assert PendingOf(FirstTrip(s, a), key) == PendingOf(s, key);
    }
  }

  lemma SecondTripLandsOnce(metric: Metric, s: State, id: nat, key: Key)
    requires id in s.pending && LandsOnce(s, key)
    ensures LandsOnce(SecondTrip(metric, s, id), key)
  {
    hide AllLanded, AcceptedPings;
    var s', p := SecondTrip(metric, s, id), s.pending[id];
    assert PendingOf(s', key) == PendingOf(s, key) - {id};
    assert KeyOf(p.token) == key <==> id in PendingOf(s, key);
    if s'.log != s.log { AttemptSnoc(s.log, Landed(p.ride.value, p.token), key); }
  }

  lemma {:induction false} RunLandsOnce(metric: Metric, actions: seq<Action>, key: Key)
    ensures LandsOnce(Run(metric, actions), key)
  {
    if actions != [] {
      var n := |actions| - 1;
      RunLandsOnce(metric, actions[..n], key);
      var s := Run(metric, actions[..n]);
      var s' := Next(metric, s, actions[n]);
      match actions[n]
      case Ping(id, _, _, _, _) => if id !in s.pending { FirstTripLandsOnce(s, actions[n], key); }
      case Land(id) => if id in s.pending { SecondTripLandsOnce(metric, s, id, key); }
      case Clear(r) =>
        LogSnoc(s.log, Cleared(r));
        assert PendingOf(s', key) == PendingOf(s, key);
      case _ => assert PendingOf(s', key) == PendingOf(s, key);
    }
  }

  lemma {:induction false} LandingsSplit(log: seq<Event>, ride: RideId, keys: set<Key>, key: Key)
    ensures key !in keys ==> LandingsIn(log, ride, keys + {key}) == LandingsIn(log, ride, keys) + LandingsIn(log, ride, {key})
    ensures LandingsIn(log, ride, {key}) <= AllLanded(log, key)
  {
    if log != [] { LandingsSplit(log[..|log| - 1], ride, keys, key); }
  }

  lemma {:induction false} LandingsOfSeconds(log: seq<Event>, ride: RideId, keys: set<Key>)
    requires Seconds(log, ride) <= keys
    ensures LandingsIn(log, ride, keys) == Landings(log, ride)
  {
    if log != [] {
      var before := log[..|log| - 1];
      match log[|log| - 1]
      case Attempt(_, _) => LandingsOfSeconds(before, ride, keys);
      case Landed(_, _) => LandingsOfSeconds(before, ride, keys);
      case Cleared(r) => if r != ride { LandingsOfSeconds(before, ride, keys); }
    }
  }

  lemma {:induction false} NoLandings(log: seq<Event>, ride: RideId)
    ensures LandingsIn(log, ride, {}) == 0
  {
    if log != [] { NoLandings(log[..|log| - 1], ride); }
  }

  lemma {:induction false} ThreePerSecond(log: seq<Event>, ride: RideId, keys: set<Key>)
    requires forall key | key in keys :: AllLanded(log, key) <= MAX_PINGS_PER_SEC
    ensures LandingsIn(log, ride, keys) <= MAX_PINGS_PER_SEC * |keys|
  {
    if keys == {} {
      NoLandings(log, ride);
    } else {
      var key :| key in keys;
      ThreePerSecond(log, ride, keys - {key});
      LandingsSplit(log, ride, keys - {key}, key);
      assert keys - {key} + {key} == keys;
    }
  }

  /** Where the limit holds for the driver-seconds of those pings, by the exact condition
      for each of them, the distance is at most 600 metres for each. */
  lemma MeteredPerSecond(metric: Metric, actions: seq<Action>, ride: RideId)
    requires ride in Run(metric, actions).dist
    requires var log := Run(metric, actions).log;
      forall key | key in Seconds(log, ride) :: Attempts(log, key) <= 3 || NoGap(log, key)
    ensures var s := Run(metric, actions); s.dist[ride] <= 600.0 * |Seconds(s.log, ride)| as real
  {
    var log := Run(metric, actions).log;
    var keys := Seconds(log, ride);
    MeteredDistanceBound(metric, actions, ride);
    LandingsOfSeconds(log, ride, keys);
    forall key | key in keys ensures AllLanded(log, key) <= MAX_PINGS_PER_SEC {
      RunLandsOnce(metric, actions, key);
      RateLimitExact(metric, actions, key);
    }
    ThreePerSecond(log, ride, keys);
  }

  // ---- four in a second ----

  /** The n-th ping of driver 0, on a clock read in second zero. */
  function EarlyPing(n: nat): Action {
    Ping(n, 0, 0, Redis.Pos(0.0, 0.0), None)
  }

  /** Where n of the pings ran, the first at instant 0 and the others at `at`, and how far
      the counter has come. */
  predicate AfterPings(s: State, n: nat, at: Instant, count: nat) {
    && s.clock == at && AcceptedPings(s.log, (0, 0)) == n && Attempts(s.log, (0, 0)) == n
    && (forall id | id in s.pending :: id < n)
    && (if n == 0 then (0, 0) !in s.buckets
        else (0, 0) in s.buckets && s.buckets[(0, 0)] == Bucket(count, at + RATE_BUCKET_TTL))
  }

  lemma PingLands(metric: Metric, s: State, n: nat, at: Instant, count: nat)
    requires AfterPings(s, n, at, count) && (n == 0 ==> count == 0) && count < MAX_PINGS_PER_SEC
    ensures AfterPings(Next(metric, s, EarlyPing(n)), n + 1, at, count + 1)
  {
    LogSnoc(s.log, Attempt(Token(0, 0, Incr(s, (0, 0))), s.clock));
  }

  /** A ping that read its clock in the second but ran when the counter was gone. */
  lemma LatePingLands(metric: Metric, s: State, n: nat, at: Instant, count: nat)
    requires AfterPings(s, n, at, count) && n > 0
    ensures var late := Next(metric, Next(metric, s, Wait(RATE_BUCKET_TTL)), EarlyPing(n));
      AfterPings(late, n + 1, at + RATE_BUCKET_TTL, 1)
  {
    var waited := Next(metric, s, Wait(RATE_BUCKET_TTL));
    LogSnoc(s.log, Attempt(Token(0, 0, Incr(waited, (0, 0))), waited.clock));
  }

  /** Three pings in second zero, and one that read its clock then but reaches Redis two
      seconds later, when the counter is gone: all four are accepted. */
  lemma LatePingExceedsLimit(metric: Metric)
    ensures var actions := [EarlyPing(0), EarlyPing(1), EarlyPing(2), Wait(2000), EarlyPing(3)];
      AcceptedPings(Run(metric, actions).log, (0, 0)) == 4
  {
    var actions := [EarlyPing(0), EarlyPing(1), EarlyPing(2), Wait(2000), EarlyPing(3)];
    Unrolled(metric, actions);
    hide AfterPings, Next, Run;
    assert AfterPings(EMPTY, 0, 0, 0) by { NothingPinged(); }
    PingLands(metric, EMPTY, 0, 0, 0);
    PingLands(metric, Next(metric, EMPTY, EarlyPing(0)), 1, 0, 1);
    PingLands(metric, Next(metric, Next(metric, EMPTY, EarlyPing(0)), EarlyPing(1)), 2, 0, 2);
    var s := Next(metric, Next(metric, Next(metric, EMPTY, EarlyPing(0)), EarlyPing(1)), EarlyPing(2));
    LatePingLands(metric, s, 3, 0, 3);
    AllAccepted(Run(metric, actions), 4, 2000, 1);
  }

  /** The late ping need not be the fourth: after one ping and the gap, three more are
      accepted, the last on a counter that is alive. */
  lemma GapBeforeALiveCounterExceedsLimit(metric: Metric)
    ensures var actions := [EarlyPing(0), Wait(2000), EarlyPing(1), EarlyPing(2), EarlyPing(3)];
      AcceptedPings(Run(metric, actions).log, (0, 0)) == 4
  {
    var actions := [EarlyPing(0), Wait(2000), EarlyPing(1), EarlyPing(2), EarlyPing(3)];
    Unrolled(metric, actions);
    hide AfterPings, Next, Run;
    assert AfterPings(EMPTY, 0, 0, 0) by { NothingPinged(); }
    PingLands(metric, EMPTY, 0, 0, 0);
    LatePingLands(metric, Next(metric, EMPTY, EarlyPing(0)), 1, 0, 1);
    var s := Next(metric, Next(metric, Next(metric, EMPTY, EarlyPing(0)), Wait(2000)), EarlyPing(1));
    PingLands(metric, s, 2, 2000, 1);
    PingLands(metric, Next(metric, s, EarlyPing(2)), 3, 2000, 2);
    AllAccepted(Run(metric, actions), 4, 2000, 3);
  }

  lemma NothingPinged()
    ensures AfterPings(EMPTY, 0, 0, 0)
  {
  }

  lemma AllAccepted(s: State, n: nat, at: Instant, count: nat)
    requires AfterPings(s, n, at, count)
    ensures AcceptedPings(s.log, (0, 0)) == n
  {
  }

  lemma Unrolled(metric: Metric, a: seq<Action>)
    requires |a| == 5
    ensures Run(metric, a) == Next(metric, Next(metric, Next(metric, Next(metric, Next(metric, EMPTY, a[0]), a[1]), a[2]), a[3]), a[4])
  {
    hide Next;
    assert a[..4][..3] == a[..3] && a[..3][..2] == a[..2] && a[..2][..1] == a[..1] && a[..1][..0] == [];
    assert Run(metric, a[..1]) == Next(metric, EMPTY, a[0]);
    assert Run(metric, a[..2]) == Next(metric, Run(metric, a[..1]), a[1]);
    assert Run(metric, a[..3]) == Next(metric, Run(metric, a[..2]), a[2]);
    assert Run(metric, a[..4]) == Next(metric, Run(metric, a[..3]), a[3]);
  }

}
