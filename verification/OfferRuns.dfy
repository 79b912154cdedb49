/** Who is offered a ride over every interleaved run in which its tried set lives. A search
    offers a driver again only if another one offered that driver meanwhile; so with one
    search at a time past its reading of the tried set no driver is offered the ride twice,
    and it is offered no more often than there are drivers. */
module OfferRuns {
  import opened Prelude
  import opened RideStates
  import opened Ledger
  import opened LedgerInvariants
  import opened Redis
  import opened Protocol
  import opened ProtocolSafety
  import opened ProtocolMatching
  import opened OfferSteps

  // ---- the offers of a run ----

  /** The drivers offered a ride, in order, and for each request how many of them had been
      when it last read the ride's tried set. */
  datatype OfferLog = OfferLog(offers: seq<DriverId>, seen: map<nat, nat>)

  function LogStep(p: Proc, id: nat, r: RideId, n: OfferLog): OfferLog {
    match p
    case Offering(ReadTried(s, _), _) => if s.r == r then n.(seen := n.seen[id := |n.offers|]) else n
    case Offering(Record(s, d), _) => if s.r == r then n.(offers := n.offers + [d]) else n
    case _ => n
  }

  function LogMove(w: World, m: Move, r: RideId, n: OfferLog): OfferLog {
    if m.Run? && m.id in w.procs then LogStep(w.procs[m.id], m.id, r, n) else n
  }

  function LogOf(w: World, moves: seq<Move>, r: RideId): OfferLog {
    if moves == [] then OfferLog([], map[])
    else
      var before := moves[..|moves| - 1];
      LogMove(Outcomes(w, before), moves[|moves| - 1], r, LogOf(w, before, r))
  }

  function OffersIn(w: World, moves: seq<Move>, r: RideId): seq<DriverId> {
    LogOf(w, moves, r).offers
  }

  /** Whatever is evicted or rewritten, the tried set of ride r is not. */
  predicate TriedLives(w: World, moves: seq<Move>, r: RideId) {
    moves == [] ||
    var before, m := moves[..|moves| - 1], moves[|moves| - 1];
    && TriedLives(w, before, r)
    && (m.Evict? || m.Havoc? ==> Tried(Outcomes(w, moves).keys, r) == Tried(Outcomes(w, before).keys, r))
  }

  /** The move records an offer to a driver who was offered the ride by somebody else since
      this search read the tried set. */
  predicate Stale(w: World, m: Move, r: RideId, n: OfferLog) {
    m.Run? && m.id in w.procs && m.id in n.seen && n.seen[m.id] <= |n.offers|
    && match w.procs[m.id]
       case Offering(Record(s, d), _) => s.r == r && d in n.offers[n.seen[m.id]..]
       case _ => false
  }

  predicate NoneStale(w: World, moves: seq<Move>, r: RideId) {
    moves == [] ||
    var before := moves[..|moves| - 1];
    NoneStale(w, before, r) && !Stale(Outcomes(w, before), moves[|moves| - 1], r, LogOf(w, before, r))
  }

  /** The request has read the tried set of r and not yet recorded an offer or given up. */
  predicate Searching(p: Proc, r: RideId) {
    p.Offering? && p.offer.s.r == r && !p.offer.FindNearby? && !p.offer.ReadTried?
  }

  predicate OneSearches(w: World, r: RideId) {
    forall i, j | i in w.procs && j in w.procs && Searching(w.procs[i], r) && Searching(w.procs[j], r) :: i == j
  }

  predicate OneAtATime(w: World, moves: seq<Move>, r: RideId) {
    OneSearches(Outcomes(w, moves), r) && (moves == [] || OneAtATime(w, moves[..|moves| - 1], r))
  }

  predicate Distinct(ds: seq<DriverId>) {
    forall n, m | 0 <= n < m < |ds| :: ds[n] != ds[m]
  }

  // ---- what a search knows ----

  /** What the search read, and whom it is about to offer the ride. */
  predicate KnowsTried(pc: OfferPc, known: set<DriverId>) {
    match pc
    case ReadCandidate(_, tried, _) => tried == known
    case Claim(_, tried, left) => tried == known && (left != [] ==> left[0] !in known)
    case Record(_, d) => d !in known
    case _ => true
  }

  function SeenBy(id: nat, first: set<DriverId>, n: OfferLog): set<DriverId>
    requires id in n.seen && n.seen[id] <= |n.offers|
  {
    first + Members(n.offers[..n.seen[id]])
  }

  /** `first` is the tried set at the start of the run. */
  predicate SearchLogged(p: Proc, id: nat, r: RideId, first: set<DriverId>, n: OfferLog) {
    Searching(p, r) ==> id in n.seen && n.seen[id] <= |n.offers| && KnowsTried(p.offer, SeenBy(id, first, n))
  }

  ghost predicate LogFits(w: World, r: RideId, first: set<DriverId>, n: OfferLog) {
    && (forall id | id in w.procs :: Shaped(w.procs[id]) && SearchLogged(w.procs[id], id, r, first, n))
    && Tried(w.keys, r) == first + Members(n.offers)
  }

  // ---- one step ----

  /** One step of a search keeps to drivers untried when it read, and only recording an
      offer changes the tried set. */
  lemma LoopStep(k: Keys, pc: OfferPc, after: Proc, i: Input, id: nat, r: RideId, first: set<DriverId>, n: OfferLog)
    requires IsTail(after) && SearchLogged(Offering(pc, after), id, r, first, n)
    requires Tried(k, r) == first + Members(n.offers)
    ensures var a, n' := OfferStep(k, pc, after, i), LogStep(Offering(pc, after), id, r, n);
      && a.tx == None && Shaped(a.next) && SearchLogged(a.next, id, r, first, n')
      && Tried(a.keys, r) == first + Members(n'.offers)
  {
    hide Eligible, AllPooled;
    if pc.ReadTried? && pc.s.r == r { assert n.offers[..|n.offers|] == n.offers; }
    if pc.Record? && pc.s.r == r { MembersSnoc(n.offers, pc.d); }
    hide Members;
  }

  lemma MembersSnoc(ds: seq<DriverId>, d: DriverId)
    ensures Members(ds + [d]) == Members(ds) + {d}
  {
  }

  // ---- every run ----

  lemma OthersStayLogged(p: Proc, id: nat, q: Proc, j: nat, r: RideId, first: set<DriverId>, n: OfferLog)
    requires SearchLogged(p, id, r, first, n) && id != j
    ensures SearchLogged(p, id, r, first, LogStep(q, j, r, n))
  {
    var n' := LogStep(q, j, r, n);
    if Searching(p, r) { assert n'.offers[..n.seen[id]] == n.offers[..n.seen[id]]; }
  }

  lemma StartIsLogged(p: Proc, id: nat, r: RideId, first: set<DriverId>, n: OfferLog)
    requires Starts(p)
    ensures Shaped(p) && SearchLogged(p, id, r, first, n)
  {
  }

  lemma QuietLog(p: Proc, id: nat, r: RideId, n: OfferLog)
    requires !p.Offering?
    ensures LogStep(p, id, r, n) == n
  {
  }

  lemma StepIsLogged(w: World, id: nat, i: Input, r: RideId, first: set<DriverId>, n: OfferLog)
    requires LogFits(w, r, first, n) && id in w.procs
    ensures var a, n' := Step(w.db, w.keys, w.procs[id], i), LogStep(w.procs[id], id, r, n);
      Shaped(a.next) && SearchLogged(a.next, id, r, first, n') && Tried(a.keys, r) == first + Members(n'.offers)
  {
    var p := w.procs[id];
    hide SearchLogged, LogStep, Members;
    if p.Offering? {
      LoopStep(w.keys, p.offer, p.after, i, id, r, first, n);
      OfferingStep(w.db, w.keys, p.offer, p.after, i);
      hide Step, OfferStep;
    } else {
      hide Step;
      OthersStep(w.db, w.keys, p, i);
      StartIsLogged(Step(w.db, w.keys, p, i).next, id, r, first, n);
      QuietLog(p, id, r, n);
    }
  }

  lemma RunIsLogged(w: World, id: nat, i: Input, r: RideId, first: set<DriverId>, n: OfferLog)
    requires LogFits(w, r, first, n) && id in w.procs
    ensures LogFits(Do(w, Run(id, i)), r, first, LogStep(w.procs[id], id, r, n))
  {
    StepIsLogged(w, id, i, r, first, n);
    forall j | j in w.procs && j != id ensures SearchLogged(w.procs[j], j, r, first, LogStep(w.procs[id], id, r, n)) {
      OthersStayLogged(w.procs[j], j, w.procs[id], id, r, first, n);
    }
    hide Step, Shaped, SearchLogged, LogStep, Tried;
  }

  lemma MoveIsLogged(w: World, m: Move, r: RideId, first: set<DriverId>, n: OfferLog)
    requires LogFits(w, r, first, n)
    requires m.Evict? || m.Havoc? ==> Tried(Do(w, m).keys, r) == Tried(w.keys, r)
    ensures LogFits(Do(w, m), r, first, LogMove(w, m, r, n))
  {
    hide Shaped, SearchLogged, LogStep, Step, Tried, Entry;
    if m.Run? && m.id in w.procs {
      RunIsLogged(w, m.id, m.i, r, first, n);
    } else if m.Arrive? && Entry(m.p) {
      EntryStarts(m.p);
      StartIsLogged(m.p, m.id, r, first, n);
    }
  }

  lemma {:induction false} RunsAreLogged(w: World, moves: seq<Move>, r: RideId)
    requires w.procs == map[] && TriedLives(w, moves, r)
    ensures LogFits(Outcomes(w, moves), r, Tried(w.keys, r), LogOf(w, moves, r))
  {
    hide Do, LogMove, Tried, Shaped, SearchLogged;
    if moves != [] {
      var before, m := moves[..|moves| - 1], moves[|moves| - 1];
      RunsAreLogged(w, before, r);
      MoveIsLogged(Outcomes(w, before), m, r, Tried(w.keys, r), LogOf(w, before, r));
    }
  }

  // ---- nobody twice ----

  /** The drivers are new and all different. */
  predicate AllNew(first: set<DriverId>, ds: seq<DriverId>) {
    Distinct(ds) && Members(ds) !! first
  }

  lemma AllNewSnoc(first: set<DriverId>, ds: seq<DriverId>, d: DriverId, seen: nat)
    requires seen <= |ds| && d !in first + Members(ds[..seen])
    ensures AllNew(first, ds + [d]) <==> AllNew(first, ds) && d !in ds[seen..]
  {
    MembersSnoc(ds, d);
    assert ds == ds[..seen] + ds[seen..];
    assert d in ds <==> d in ds[seen..];
    assert AllNew(first, ds + [d]) ==> AllNew(first, ds) && d !in ds by {
      if AllNew(first, ds + [d]) {
        forall n, m | 0 <= n < m < |ds| ensures ds[n] != ds[m] {
          assert (ds + [d])[n] != (ds + [d])[m];
        }
        forall n | 0 <= n < |ds| ensures ds[n] != d {
          assert (ds + [d])[n] != (ds + [d])[|ds|];
        }
      }
    }
  }

  lemma MoveOffers(w: World, m: Move, r: RideId, first: set<DriverId>, n: OfferLog)
    requires LogFits(w, r, first, n)
    ensures AllNew(first, LogMove(w, m, r, n).offers) <==> AllNew(first, n.offers) && !Stale(w, m, r, n)
  {
    hide AllNew, Tried, Shaped;
    if m.Run? && m.id in w.procs && Searching(w.procs[m.id], r) && w.procs[m.id].offer.Record? {
      assert SearchLogged(w.procs[m.id], m.id, r, first, n);
      AllNewSnoc(first, n.offers, w.procs[m.id].offer.d, n.seen[m.id]);
    }
  }

  /** Over any interleaving and any contents of Redis, so long as the ride's tried set is
      left alone: it ends up as what it was and the drivers offered the ride, and these are
      new and all different if and only if no search records an offer to a driver somebody
      else offered the ride since that search read the tried set. */
  lemma {:induction false} OffersNewIffNoneStale(w: World, moves: seq<Move>, r: RideId)
    requires w.procs == map[] && TriedLives(w, moves, r)
    ensures var offers := OffersIn(w, moves, r);
      && Tried(Outcomes(w, moves).keys, r) == Tried(w.keys, r) + Members(offers)
      && (AllNew(Tried(w.keys, r), offers) <==> NoneStale(w, moves, r))
  {
    RunsAreLogged(w, moves, r);
    hide LogFits, Do, Tried, LogMove, Stale;
    if moves != [] {
      var before, m := moves[..|moves| - 1], moves[|moves| - 1];
      OffersNewIffNoneStale(w, before, r);
      RunsAreLogged(w, before, r);
      MoveOffers(Outcomes(w, before), m, r, Tried(w.keys, r), LogOf(w, before, r));
    }
  }

  // ---- one search at a time ----

  /** A search that nobody overlapped has seen every offer made. */
  predicate SeesAll(w: World, r: RideId, n: OfferLog) {
    forall id | id in w.procs && Searching(w.procs[id], r) :: id in n.seen && n.seen[id] == |n.offers|
  }

  lemma SearchBegins(db: Db, k: Keys, p: Proc, i: Input, r: RideId)
    requires Shaped(p) && Searching(Step(db, k, p, i).next, r) && !Searching(p, r)
    ensures p.Offering? && p.offer.ReadTried? && p.offer.s.r == r
  {
    if p.Offering? {
      OfferingStep(db, k, p.offer, p.after, i);
      hide Step, Eligible, AllPooled;
    } else {
      OthersStep(db, k, p, i);
      hide Step, LeavesClaims;
    }
  }

  lemma SearchEnds(db: Db, k: Keys, p: Proc, i: Input, r: RideId)
    requires Shaped(p) && p.Offering? && p.offer.Record?
    ensures !Searching(Step(db, k, p, i).next, r)
  {
    OfferingStep(db, k, p.offer, p.after, i);
    hide Step;
  }

  lemma RunSeesAll(w: World, id: nat, i: Input, r: RideId, first: set<DriverId>, n: OfferLog)
    requires LogFits(w, r, first, n) && id in w.procs && SeesAll(w, r, n) && OneSearches(w, r)
    ensures SeesAll(Do(w, Run(id, i)), r, LogStep(w.procs[id], id, r, n))
  {
    var p, next := w.procs[id], Step(w.db, w.keys, w.procs[id], i).next;
    assert Shaped(p);
    if Searching(next, r) && !Searching(p, r) { SearchBegins(w.db, w.keys, p, i, r); }
    if p.Offering? && p.offer.Record? { SearchEnds(w.db, w.keys, p, i, r); }
    hide Step, Shaped, SearchLogged, Tried;
  }

  lemma MoveSeesAll(w: World, m: Move, r: RideId, first: set<DriverId>, n: OfferLog)
    requires LogFits(w, r, first, n) && SeesAll(w, r, n) && OneSearches(w, r)
    ensures SeesAll(Do(w, m), r, LogMove(w, m, r, n)) && !Stale(w, m, r, n)
  {
    hide LogFits, OneSearches, Step, LogStep;
    if m.Run? && m.id in w.procs {
      RunSeesAll(w, m.id, m.i, r, first, n);
    } else if m.Arrive? && Entry(m.p) {
      EntryStarts(m.p);
    }
    hide Entry;
  }

  lemma {:induction false} OneAtATimeSeesAll(w: World, moves: seq<Move>, r: RideId)
    requires w.procs == map[] && TriedLives(w, moves, r) && OneAtATime(w, moves, r)
    ensures SeesAll(Outcomes(w, moves), r, LogOf(w, moves, r)) && NoneStale(w, moves, r)
  {
    hide SeesAll, OneSearches, LogFits, Do, LogMove, Stale, Tried;
    if moves == [] {
      assert SeesAll(w, r, OfferLog([], map[])) by { NobodySearches(w, r); }
    } else {
      var before, m := moves[..|moves| - 1], moves[|moves| - 1];
      OneAtATimeSeesAll(w, before, r);
      RunsAreLogged(w, before, r);
      MoveSeesAll(Outcomes(w, before), m, r, Tried(w.keys, r), LogOf(w, before, r));
    }
  }

  lemma NobodySearches(w: World, r: RideId)
    requires w.procs == map[]
    ensures SeesAll(w, r, OfferLog([], map[]))
  {
  }

  // ---- no more offers than drivers ----

  predicate RecordOnFile(db: Db, p: Proc) {
    p.Offering? && p.offer.Record? ==> p.offer.d in db.drivers
  }

  ghost predicate AllOnFile(w: World, ds: seq<DriverId>) {
    && (forall d | d in ds :: d in w.db.drivers)
    && forall id | id in w.procs :: RecordOnFile(w.db, w.procs[id])
  }

  lemma StepOnFile(db: Db, k: Keys, p: Proc, i: Input)
    requires Shaped(p) && ProcFits(db, p)
    ensures RecordOnFile(db, Step(db, k, p, i).next)
  {
    if p.Offering? {
      OfferingStep(db, k, p.offer, p.after, i);
      hide Step, Eligible, AllPooled, SearchFits, Fits;
      if p.offer.Claim? && p.offer.left != [] { assert LivesIn(db, p.offer.left[0], p.offer.s.city); }
    } else {
      OthersStep(db, k, p, i);
      hide Step, LeavesClaims;
    }
  }

  lemma MoveOnFile(w: World, m: Move, r: RideId, first: set<DriverId>, n: OfferLog)
    requires LogFits(w, r, first, n) && AllFit(w) && AllOnFile(w, n.offers)
    ensures AllOnFile(Do(w, m), LogMove(w, m, r, n).offers)
    ensures Do(w, m).db.drivers.Keys == w.db.drivers.Keys
  {
    hide SearchLogged, Shaped, Tried, KeysFit, RidesFit, ProcFits, Step, Apply, Entry;
    if m.Run? && m.id in w.procs {
      assert RecordOnFile(w.db, w.procs[m.id]);
      StepOnFile(w.db, w.keys, w.procs[m.id], m.i);
      DriversStay(w.db, Step(w.db, w.keys, w.procs[m.id], m.i).tx);
    } else if m.Quoted? {
      DriversStay(w.db, Some(InsertQuote(m.q, m.quote)));
    } else if m.Arrive? && Entry(m.p) {
      EntryStarts(m.p);
    }
  }

  lemma {:induction false} OffersOnFile(w: World, moves: seq<Move>, r: RideId)
    requires w.procs == map[] && Safe(w) && AllFit(w) && Undisturbed(moves) && TriedLives(w, moves, r)
    ensures AllOnFile(Outcomes(w, moves), OffersIn(w, moves, r))
    ensures Outcomes(w, moves).db.drivers.Keys == w.db.drivers.Keys
  {
    hide Safe, AllFit, AllOnFile, LogFits, Do, LogMove, Tried;
    if moves == [] {
      assert AllOnFile(w, []) by { NobodyOnFile(w); }
    } else {
      var before, m := moves[..|moves| - 1], moves[|moves| - 1];
      assert Undisturbed(before);
      OffersOnFile(w, before, r);
      RunsFit(w, before);
      RunsAreLogged(w, before, r);
      MoveOnFile(Outcomes(w, before), m, r, Tried(w.keys, r), LogOf(w, before, r));
    }
  }

  lemma NobodyOnFile(w: World)
    requires w.procs == map[]
    ensures AllOnFile(w, [])
  {
  }

  /** So a ride is offered no more often than there are drivers, in any interleaved run in
      which only this program writes Redis. */
  lemma OffersBounded(db: Db, moves: seq<Move>, r: RideId)
    requires Fresh(db) && Undisturbed(moves)
    requires var w := World(db, FLUSHED, map[]); TriedLives(w, moves, r) && NoneStale(w, moves, r)
    ensures |OffersIn(World(db, FLUSHED, map[]), moves, r)| <= |db.drivers|
  {
    var w := World(db, FLUSHED, map[]);
    var offers := OffersIn(w, moves, r);
    FreshIsSafe(db, FLUSHED);
    hide Safe, TriedLives, NoneStale, LogOf, Outcomes;
    OffersOnFile(w, moves, r);
    OffersNewIffNoneStale(w, moves, r);
    MembersCount(offers);
    assert Members(offers) <= db.drivers.Keys;
    SubsetSize(Members(offers), db.drivers.Keys);
  }

  /** With one search at a time past its reading of the tried set, whatever else goes on at
      the same time: no driver is offered the ride twice, the tried set is exactly those
      offered, and they are no more than there are drivers. */
  lemma NobodyIsOfferedTwice(db: Db, moves: seq<Move>, r: RideId)
    requires Fresh(db) && Undisturbed(moves)
    requires var w := World(db, FLUSHED, map[]); TriedLives(w, moves, r) && OneAtATime(w, moves, r)
    ensures var w := World(db, FLUSHED, map[]);
      var offers := OffersIn(w, moves, r);
      && (forall n, m | 0 <= n < m < |offers| :: offers[n] != offers[m])
      && Tried(Outcomes(w, moves).keys, r) == (set d | d in offers)
      && |offers| <= |db.drivers|
  {
    var w := World(db, FLUSHED, map[]);
    hide Fresh, TriedLives, OneAtATime, NoneStale, LogOf, Outcomes;
    OneAtATimeSeesAll(w, moves, r);
    OffersNewIffNoneStale(w, moves, r);
    OffersBounded(db, moves, r);
    assert Tried(FLUSHED, r) == {};
    assert (set d | d in OffersIn(w, moves, r)) == Members(OffersIn(w, moves, r));
  }

  // ---- two searches, one driver ----

  /** Driver d can be offered the matching ride r, and nobody has been. */
  predicate CanBeOffered(w: World, d: DriverId, r: RideId) {
    && HasStatus(w.db, r, Matching) && SearchOf(w.db, r).Some? && r !in w.keys.offerRide
    && var s := SearchOf(w.db, r).value;
    && (s.city, d) in w.keys.geo && Eligible(Lookup(w.keys.mirror, d), d in w.keys.last, s.tier)
    && d !in Tried(w.keys, r) && d !in w.keys.offerDriver
  }

  predicate Calm(w: World, moves: seq<Move>, r: RideId) {
    Undisturbed(moves) && TriedLives(w, moves, r)
  }

  lemma Extended(w: World, moves: seq<Move>, m: Move, r: RideId) returns (more: seq<Move>)
    requires Calm(w, moves, r) && !m.Evict? && !m.Havoc?
    ensures more == moves + [m] && Calm(w, more, r)
    ensures Outcomes(w, more) == Do(Outcomes(w, moves), m)
    ensures LogOf(w, more, r) == LogMove(Outcomes(w, moves), m, r, LogOf(w, moves, r))
  {
    more := moves + [m];
    assert more[..|more| - 1] == moves;
  }

  /** One step that commits nothing. */
  lemma Stepped(w: World, moves: seq<Move>, id: nat, p: Proc, i: Input, k: Keys, next: Proc, r: RideId)
    returns (more: seq<Move>)
    requires Calm(w, moves, r)
    requires var v := Outcomes(w, moves); id in v.procs && v.procs[id] == p && Step(v.db, v.keys, p, i) == Act(None, k, next)
    ensures Calm(w, more, r)
    ensures var v := Outcomes(w, moves); Outcomes(w, more) == v.(keys := k, procs := v.procs[id := next])
    ensures LogOf(w, more, r) == LogStep(p, id, r, LogOf(w, moves, r))
  {
    hide Calm, Step, LogStep, LogOf, Outcomes;
    more := Extended(w, moves, Run(id, i), r);
  }

  lemma Arrives(w: World, moves: seq<Move>, id: nat, p: Proc, r: RideId) returns (more: seq<Move>)
    requires Calm(w, moves, r) && id !in Outcomes(w, moves).procs && Entry(p)
    ensures Calm(w, more, r)
    ensures var v := Outcomes(w, moves); Outcomes(w, more) == v.(procs := v.procs[id := p])
    ensures LogOf(w, more, r) == LogOf(w, moves, r)
  {
    hide Calm, Step, LogStep, LogOf, Outcomes, Entry;
    more := Extended(w, moves, Arrive(id, p), r);
  }

  lemma Declines(w: World, moves: seq<Move>, id: nat, d: DriverId, r: RideId) returns (more: seq<Move>)
    requires Calm(w, moves, r) && id !in Outcomes(w, moves).procs
    ensures Calm(w, more, r)
    ensures var v := Outcomes(w, moves);
      Outcomes(w, more) == World(v.db, TakeOffer(v.keys, d), v.procs[id := Declining(ReadOffer(d, r))])
    ensures LogOf(w, more, r) == LogOf(w, moves, r)
  {
    hide Calm, LogOf, Outcomes;
    var v, p := Outcomes(w, moves), Declining(TakeDeclined(d, r));
    more := Arrives(w, moves, id, p, r);
    more := Stepped(w, more, id, p, QUIET, TakeOffer(v.keys, d), Declining(ReadOffer(d, r)), r);
  }

  /** A decline of an offer not held ends up about to claim the driver for the ride. */
  lemma Prepares(w: World, moves: seq<Move>, id: nat, d: DriverId, r: RideId) returns (more: seq<Move>)
    requires Calm(w, moves, r) && id !in Outcomes(w, moves).procs && CanBeOffered(Outcomes(w, moves), d, r)
    ensures Calm(w, more, r)
    ensures var v := Outcomes(w, moves);
      Outcomes(w, more) == v.(procs := v.procs[id := AboutToClaim(v, d, r)])
    ensures LogOf(w, more, r).offers == LogOf(w, moves, r).offers
  {
    hide Calm, Outcomes, LogOf;
    var v, i := Outcomes(w, moves), QUIET.(nearby := [d]);
    var k, s := v.keys, SearchOf(v.db, r).value;
    more := Declines(w, moves, id, d, r);
    assert TakeOffer(k, d) == k by { NothingTaken(k, d); }
    more := Stepped(w, more, id, Declining(ReadOffer(d, r)), i, k, Declining(LoadDeclined(r)), r);
    more := Stepped(w, more, id, Declining(LoadDeclined(r)), i, k, Offering(FindNearby(s), FINISHED), r);
    more := Stepped(w, more, id, Offering(FindNearby(s), FINISHED), i, k, Offering(ReadTried(s, [d]), FINISHED), r);
    more := Stepped(w, more, id, Offering(ReadTried(s, [d]), FINISHED), i, k,
                    Offering(ReadCandidate(s, Tried(k, r), [d]), FINISHED), r);
    more := Stepped(w, more, id, Offering(ReadCandidate(s, Tried(k, r), [d]), FINISHED), i, k, AboutToClaim(v, d, r), r);
  }

  function AboutToClaim(v: World, d: DriverId, r: RideId): Proc
    requires SearchOf(v.db, r).Some?
  {
    Offering(Claim(SearchOf(v.db, r).value, Tried(v.keys, r), [d]), FINISHED)
  }

  lemma NothingTaken(k: Keys, d: DriverId)
    requires d !in k.offerDriver
    ensures TakeOffer(k, d) == k
  {
    assert k.offerDriver - {d} == k.offerDriver;
  }

  lemma Offers(w: World, moves: seq<Move>, id: nat, s: Search, tried: set<DriverId>, d: DriverId) returns (more: seq<Move>)
    requires Calm(w, moves, s.r) && id in Outcomes(w, moves).procs
    requires Outcomes(w, moves).procs[id] == Offering(Claim(s, tried, [d]), FINISHED)
    requires d !in Outcomes(w, moves).keys.offerDriver
    ensures Calm(w, more, s.r)
    ensures var v := Outcomes(w, moves);
      Outcomes(w, more) == World(v.db, RecordOffer(ClaimOffer(v.keys, d, s.r), s.r, d), v.procs[id := FINISHED])
    ensures LogOf(w, more, s.r).offers == LogOf(w, moves, s.r).offers + [d]
  {
    hide Calm, Outcomes, LogOf;
    var v, k := Outcomes(w, moves), Outcomes(w, moves).keys;
    more := Stepped(w, moves, id, Offering(Claim(s, tried, [d]), FINISHED), QUIET, ClaimOffer(k, d, s.r),
                    Offering(Record(s, d), FINISHED), s.r);
    more := Stepped(w, more, id, Offering(Record(s, d), FINISHED), QUIET, RecordOffer(ClaimOffer(k, d, s.r), s.r, d),
                    FINISHED, s.r);
  }

  /** Two searches at a time do offer a driver twice, wherever a driver can be offered a
      ride at all: two repeated declines both search, one of them offers, the driver
      declines, and the other offers again. */
  lemma TwoSearchesOfferTwice(w: World, d: DriverId, r: RideId) returns (moves: seq<Move>)
    requires w.procs == map[] && CanBeOffered(w, d, r)
    ensures Undisturbed(moves) && TriedLives(w, moves, r) && OffersIn(w, moves, r) == [d, d]
  {
    hide Outcomes, LogOf, TriedLives, ClaimOffer, RecordOffer, Eligible, Lookup;
    var s := SearchOf(w.db, r).value;
    moves := [];
    assert Calm(w, moves, r) && Outcomes(w, moves) == w && LogOf(w, moves, r) == OfferLog([], map[]) by { NothingYet(w, r); }
    moves := Prepares(w, moves, 0, d, r);
    moves := Prepares(w, moves, 1, d, r);
    moves := Offers(w, moves, 1, s, Tried(w.keys, r), d);
    moves := Declines(w, moves, 2, d, r);
    moves := Offers(w, moves, 0, s, Tried(w.keys, r), d);
  }

  lemma NothingYet(w: World, r: RideId)
    ensures Calm(w, [], r) && Outcomes(w, []) == w && LogOf(w, [], r) == OfferLog([], map[])
  {
  }

}
