/** Whose doing the committed changes are, over every interleaved run: whatever Redis
    answers and wherever requests stop, each is what some request asked for that had
    arrived, and was allowed by what that request read first. */
module AsAsked {
  import opened Prelude
  import opened Pricing
  import opened RideStates
  import opened TripClock
  import opened Ledger
  import opened LedgerInvariants
  import opened LedgerHistory
  import opened LedgerGrowth
  import opened Redis
  import opened Protocol
  import opened ProtocolSafety
  import opened Requests

  // ---- who did what ----

  /** The requests under way, and the one that committed each entry of the log and each ride. */
  datatype Trace = Trace(requests: map<nat, Request>, signers: seq<Request>, booked: Bookings)

  const NO_TRACE := Trace(map[], [], map[])

  function Copies(req: Request, n: int): seq<Request> {
    if n <= 0 then [] else seq(n, _ => req)
  }

  function TraceMove(w: World, m: Move, t: Trace): Trace {
    match m
    case Arrive(id, p) =>
      if id !in w.procs && Entry(p) then t.(requests := t.requests[id := Request(p, None, 0)]) else t
    case Run(id, i) =>
      if id !in w.procs || id !in t.requests then t
      else
        var req, db := Reading(t.requests[id], w.db, i.now), Do(w, m).db;
        Trace(t.requests[id := req], t.signers + Copies(req, |db.log| - |w.db.log|), Signed(t.booked, db, req))
    case _ => t
  }

  function TraceOf(w: World, moves: seq<Move>): Trace {
    if moves == [] then NO_TRACE
    else
      var before := moves[..|moves| - 1];
      TraceMove(Outcomes(w, before), moves[|moves| - 1], TraceOf(w, before))
  }

  ghost predicate CameIn(moves: seq<Move>, entry: Proc) {
    exists n :: 0 <= n < |moves| && moves[n].Arrive? && moves[n].p == entry
  }

  // ---- what an entry of the log says of the request that committed it ----

  ghost predicate AskedFor(db: Db, booked: Bookings, e: Event, req: Request) {
    match e
    case Moved(r, from, to) =>
      (match to
       case Requested => false
       case Matching => r in booked && booked[r] == req
       case DriverAssigned => exists d :: req.entry == Accepting(TakeHeld(d, r))
       case DriverArriving => exists d :: DrivenOnBy(req, r, d, ToArriving)
       case Arrived => exists d :: DrivenOnBy(req, r, d, ToArrived)
       case InProgress => exists d, otp :: StartedBy(req, d, r, otp)
       case Completed => exists d :: EndedBy(req, d, r)
       case CancelledByRider => exists rider, reason :: CancelledBy(req, r, ByRider(rider), reason)
       case CancelledByDriver => exists d, reason :: CancelledBy(req, r, ByDriver(d), reason)
       case Expired => req.entry == Sweeping(ClaimBatch))
    case Assigned(r, d) => req.entry == Accepting(TakeHeld(d, r))
    case Attempted(p, ref) => exists rider, r :: TriggeredBy(req, rider, r) && PaidFor(db, p, r)
    case Settled(p, ref, success) =>
      req.entry == Confirming(LoadByRef(ref, success)) && ref in db.issued && db.issued[ref] == p
  }

  /** The ride is the booking that was asked for: the rider's, at the quote's route, and at
      the quote's price for the tier until it completes. */
  ghost predicate BookedAs(quotes: map<QuoteId, Quote>, ride: Ride, req: Request) {
    exists b: Booking ::
      && BookedBy(req, b) && b.q in quotes && quotes[b.q] == req.read.value.quotes[b.q]
      && ride.rider == b.rider && ride.quote == b.q && ride.tier == b.tier && ride.payBy == Some(b.payBy)
      && ride.route == quotes[b.q].route
      && (ride.status != Completed ==> ride.fareTotal == Some(quotes[b.q].prices[b.tier]))
  }

  // ---- the invariant ----

  ghost predicate RequestFits(w: World, booked: Bookings, req: Request, p: Proc) {
    OnCourse(booked, req, p) && (req.read.Some? ==> QuotesKept(req.read.value, w.db))
  }

  ghost predicate RequestsFit(w: World, t: Trace) {
    forall id | id in w.procs :: id in t.requests && RequestFits(w, t.booked, t.requests[id], w.procs[id])
  }

  ghost predicate LogFits(db: Db, booked: Bookings, signers: seq<Request>) {
    |signers| == |db.log| && forall n | 0 <= n < |signers| :: AskedFor(db, booked, db.log[n], signers[n])
  }

  ghost predicate RidesFit(db: Db, booked: Bookings) {
    booked.Keys == db.rides.Keys && forall r | r in db.rides :: BookedAs(db.quotes, db.rides[r], booked[r])
  }

  ghost predicate Traced(w: World, t: Trace) {
    RequestsFit(w, t) && LogFits(w.db, t.booked, t.signers) && RidesFit(w.db, t.booked)
  }

  // ---- what a transaction logs and leaves of the bookings ----

  /** The entries a transaction adds to the log. */
  ghost function Entries(db: Db, tx: Tx): seq<Event>
    requires Ok(db, tx)
  {
    match tx
    case MoveRide(r, from, to, _) => [Moved(r, from, to)]
    case CancelRide(r, to, _, _) => [Moved(r, db.rides[r].status, to)]
    case AssignRide(r, d, _, _) => [Moved(r, Matching, DriverAssigned), Assigned(r, d)]
    case StartTrip(r, _) => [Moved(r, Arrived, InProgress)]
    case EndTrip(r, _, _, _, _, _, _, _) => [Moved(r, InProgress, Completed)]
    case TriggerPayment(p, ref) => [Attempted(p, ref)]
    case SettleSuccess(ref, _) => [Settled(db.issued[ref], ref, true)]
    case SettleFailure(ref) => [Settled(db.issued[ref], ref, false)]
    case _ => []
  }

  lemma LogGrows(db: Db, tx: Tx)
    requires Ok(db, tx)
    ensures Apply(db, tx).log == db.log + Entries(db, tx)
  {
    if tx.CancelRide? {
      CancelLogs(db, tx);
    } else if tx.EndTrip? {
      EndLogs(db, tx);
    } else if tx.AssignRide? {
      assert [Moved(tx.r, Matching, DriverAssigned)] + [Assigned(tx.r, tx.d)] == Entries(db, tx);
    } else {
      hide ReceiptOf, CancelEffect, EndEffect, AssignEffect, Legal;
    }
  }

  lemma CancelLogs(db: Db, tx: Tx)
    requires tx.CancelRide? && Ok(db, tx)
    ensures Apply(db, tx).log == db.log + Entries(db, tx)
  {
    hide Legal;
  }

  lemma EndLogs(db: Db, tx: Tx)
    requires tx.EndTrip? && Ok(db, tx)
    ensures Apply(db, tx).log == db.log + Entries(db, tx)
  {
  }

  /** What was asked for is what is logged. */
  lemma EntriesAsked(db: Db, booked: Bookings, req: Request, tx: Tx, n: nat)
    requires Ok(db, tx) && Asks(db, booked, req, tx) && n < |Entries(db, tx)|
    ensures AskedFor(Apply(db, tx), booked, Entries(db, tx)[n], req)
  {
    hide Apply, StartedBy, EndedBy, CancelledBy, DrivenOnBy;
    if tx.TriggerPayment? || tx.SettleSuccess? || tx.SettleFailure? {
      MoneyKept(db, tx);
    } else if tx.CancelRide? {
      CancelAsked(db, booked, req, tx);
    }
  }

  lemma MoneyKept(db: Db, tx: Tx)
    requires Ok(db, tx) && (tx.TriggerPayment? || tx.SettleSuccess? || tx.SettleFailure?)
    ensures var db' := Apply(db, tx);
      && (tx.TriggerPayment? ==> forall r :: PaidFor(db, tx.p, r) ==> PaidFor(db', tx.p, r))
      && (!tx.TriggerPayment? ==> db'.issued == db.issued)
  {
    hide ReceiptOf;
  }

  lemma CancelAsked(db: Db, booked: Bookings, req: Request, tx: Tx)
    requires tx.CancelRide? && Ok(db, tx) && Asks(db, booked, req, tx)
    ensures AskedFor(Apply(db, tx), booked, Entries(db, tx)[0], req)
  {
    hide Apply, CancelledBy;
  }

  lemma EntryStays(db: Db, db': Db, booked: Bookings, booked': Bookings, e: Event, req: Request)
    requires AskedFor(db, booked, e, req) && PaymentsGrow(db, db') && IssuedGrows(db, db') && Submap(booked, booked')
    ensures AskedFor(db', booked', e, req)
  {
    hide StartedBy, EndedBy, CancelledBy, DrivenOnBy;
  }

  lemma SignedGrows(db: Db, db': Db, booked: Bookings, req: Request)
    requires booked.Keys == db.rides.Keys && RidesGrow(db, db')
    ensures Submap(booked, Signed(booked, db', req)) && Signed(booked, db', req).Keys == db'.rides.Keys
  {
  }

  lemma NewEntriesAsked(db: Db, booked: Bookings, booked': Bookings, req: Request, tx: Tx)
    requires Ok(db, tx) && Asks(db, booked, req, tx) && Submap(booked, booked')
    ensures var db' := Apply(db, tx);
      db.log <= db'.log && forall n | |db.log| <= n < |db'.log| :: AskedFor(db', booked', db'.log[n], req)
  {
    hide Ok, Apply, AskedFor, Asks, Submap, Entries;
    LogGrows(db, tx);
    var db' := Apply(db, tx);
    forall n | |db.log| <= n < |db'.log| ensures AskedFor(db', booked', db'.log[n], req) {
      EntriesAsked(db, booked, req, tx, n - |db.log|);
      EntryRecorded(db', booked, booked', db'.log[n], req);
    }
  }

  lemma LogExtends(db: Db, db': Db, booked: Bookings, booked': Bookings, signers: seq<Request>, req: Request)
    requires LogFits(db, booked, signers) && Extends(db, db') && Submap(booked, booked') && db.log <= db'.log
    requires forall n | |db.log| <= n < |db'.log| :: AskedFor(db', booked', db'.log[n], req)
    ensures LogFits(db', booked', signers + Copies(req, |db'.log| - |db.log|))
  {
    hide Extends, AskedFor, Submap;
    var all := signers + Copies(req, |db'.log| - |db.log|);
    forall n | 0 <= n < |all| ensures AskedFor(db', booked', db'.log[n], all[n]) {
      if n < |signers| { EntryGrew(db, db', booked, booked', db.log[n], signers[n]); }
    }
  }

  lemma EntryGrew(db: Db, db': Db, booked: Bookings, booked': Bookings, e: Event, req: Request)
    requires AskedFor(db, booked, e, req) && Extends(db, db') && Submap(booked, booked')
    ensures AskedFor(db', booked', e, req)
  {
    hide AskedFor, PaymentsGrow, IssuedGrows, DriversGrow, RidesGrow, TripsGrow, SettledGrows, QuotesKept;
    EntryStays(db, db', booked, booked', e, req);
  }

  lemma EntryRecorded(db: Db, booked: Bookings, booked': Bookings, e: Event, req: Request)
    requires AskedFor(db, booked, e, req) && Submap(booked, booked')
    ensures AskedFor(db, booked', e, req)
  {
    hide StartedBy, EndedBy, CancelledBy, DrivenOnBy;
  }

  // ---- bookings ----

  /** Nothing but an end changes what a ride is priced at. */
  predicate PricedAlike(a: Ride, b: Ride) {
    b.status != Completed ==> a.status != Completed && b.fareTotal == a.fareTotal
  }

  lemma PriceStays(db: Db, tx: Tx, r: RideId)
    requires Ok(db, tx) && Justified(db, tx) && r in db.rides
    ensures r in Apply(db, tx).rides && PricedAlike(db.rides[r], Apply(db, tx).rides[r])
  {
    if tx.CancelRide? {
      CancelPrices(db, tx, r);
    } else if tx.EndTrip? {
      EndPrices(db, tx, r);
    } else {
      hide ReceiptOf, CancelEffect, EndEffect;
    }
  }

  lemma CancelPrices(db: Db, tx: Tx, r: RideId)
    requires tx.CancelRide? && Ok(db, tx) && r in db.rides
    ensures r in Apply(db, tx).rides && PricedAlike(db.rides[r], Apply(db, tx).rides[r])
  {
  }

  lemma EndPrices(db: Db, tx: Tx, r: RideId)
    requires tx.EndTrip? && Ok(db, tx) && r in db.rides
    ensures r in Apply(db, tx).rides && PricedAlike(db.rides[r], Apply(db, tx).rides[r])
  {
  }

  lemma BookingStays(quotes: map<QuoteId, Quote>, quotes': map<QuoteId, Quote>, ride: Ride, ride': Ride, req: Request)
    requires BookedAs(quotes, ride, req) && RideGrows(ride, ride') && PricedAlike(ride, ride')
    requires forall q | q in quotes :: q in quotes' && quotes'[q] == quotes[q]
    ensures BookedAs(quotes', ride', req)
  {
    hide BookedBy;
  }

  lemma BookingMade(db: Db, tx: Tx, req: Request)
    requires tx.InsertRide? && Ok(db, tx) && req.read.Some? && QuotesKept(req.read.value, db)
    requires BookedBy(req, Booking(tx.rider, tx.q, tx.tier, tx.payBy))
    ensures var db' := Apply(db, tx);
      tx.r in db'.rides && db'.rides.Keys == db.rides.Keys + {tx.r} && BookedAs(db'.quotes, db'.rides[tx.r], req)
  {
    var b := Booking(tx.rider, tx.q, tx.tier, tx.payBy);
    assert b.q in req.read.value.quotes;
  }

  lemma NoRideMade(db: Db, tx: Tx)
    requires !tx.InsertRide? && Ok(db, tx)
    ensures Apply(db, tx).rides.Keys == db.rides.Keys
  {
    hide ReceiptOf;
  }

  lemma RideNew(db: Db, booked: Bookings, req: Request, tx: Tx, r: RideId)
    requires Ok(db, tx) && Asks(db, booked, req, tx) && req.read.Some? && QuotesKept(req.read.value, db)
    requires r in Apply(db, tx).rides && r !in db.rides
    ensures BookedAs(Apply(db, tx).quotes, Apply(db, tx).rides[r], req)
  {
    if tx.InsertRide? { BookingMade(db, tx, req); } else { NoRideMade(db, tx); }
    hide BookedAs, Apply, Ok, QuotesKept, BookedBy;
  }

  lemma RidesExtend(db: Db, db': Db, booked: Bookings, req: Request)
    requires RidesFit(db, booked) && RidesGrow(db, db') && QuotesKept(db, db')
    requires forall r | r in db.rides :: r in db'.rides && PricedAlike(db.rides[r], db'.rides[r])
    requires forall r | r in db'.rides && r !in db.rides :: BookedAs(db'.quotes, db'.rides[r], req)
    ensures RidesFit(db', Signed(booked, db', req))
  {
    hide BookedAs, PricedAlike, RideGrows;
    forall r | r in db'.rides ensures BookedAs(db'.quotes, db'.rides[r], Signed(booked, db', req)[r]) {
      if r in db.rides { BookingStays(db.quotes, db'.quotes, db.rides[r], db'.rides[r], booked[r]); }
    }
  }

  // ---- every run ----

  lemma {:induction false} ServesStays(booked: Bookings, booked': Bookings, req: Request, p: Proc)
    requires Serves(booked, req, p) && Submap(booked, booked')
    ensures Serves(booked', req, p)
  {
    hide AcceptServes, EndServes, TripServes, RideServes, MoneyServes, Shows, BookedBy;
    match p
    case Offering(_, after) => ServesStays(booked, booked', req, after);
    case Releasing(_, after) => ServesStays(booked, booked', req, after);
    case Uncaching(_, after) => ServesStays(booked, booked', req, after);
    case _ =>
  }

  lemma RequestStays(w: World, w': World, booked: Bookings, booked': Bookings, req: Request, p: Proc)
    requires RequestFits(w, booked, req, p) && QuotesKept(w.db, w'.db) && Submap(booked, booked')
    ensures RequestFits(w', booked', req, p)
  {
    hide Serves;
    if req.read.Some? { ServesStays(booked, booked', req, p); }
  }

  /** What a request commits keeps the log and the bookings signed by those who asked. */
  lemma CommitKeepsTraced(db: Db, booked: Bookings, signers: seq<Request>, req: Request, tx: Option<Tx>)
    requires Inv(db) && JustifiedStep(db, tx) && LogFits(db, booked, signers) && RidesFit(db, booked)
    requires tx.Some? ==> Asks(db, booked, req, tx.value)
    requires req.read.Some? && QuotesKept(req.read.value, db)
    ensures var db' := After(db, tx);
      var booked' := Signed(booked, db', req);
      && LogFits(db', booked', signers + Copies(req, |db'.log| - |db.log|)) && RidesFit(db', booked')
      && QuotesKept(db, db') && Submap(booked, booked')
  {
    var db' := After(db, tx);
    if tx.Some? && Ok(db, tx.value) {
      ApplyExtends(db, tx.value);
      TxSigned(db, booked, signers, req, tx.value);
    } else {
      hide Ok, Inv, LogFits, BookedAs;
      SignedAlready(db, booked, req);
      assert signers + Copies(req, 0) == signers;
    }
  }

  lemma TxSigned(db: Db, booked: Bookings, signers: seq<Request>, req: Request, tx: Tx)
    requires Ok(db, tx) && Justified(db, tx) && Extends(db, Apply(db, tx))
    requires LogFits(db, booked, signers) && RidesFit(db, booked)
    requires Asks(db, booked, req, tx) && req.read.Some? && QuotesKept(req.read.value, db)
    ensures var db' := Apply(db, tx);
      var booked' := Signed(booked, db', req);
      && LogFits(db', booked', signers + Copies(req, |db'.log| - |db.log|)) && RidesFit(db', booked')
      && QuotesKept(db, db') && Submap(booked, booked')
  {
    hide Ok, Apply, Justified, Asks, LogFits, BookedAs, PricedAlike, RideGrows, AskedFor, Signed, Submap;
    hide DriversGrow, TripsGrow, PaymentsGrow, IssuedGrows, SettledGrows;
    var db' := Apply(db, tx);
    SignedGrows(db, db', booked, req);
    NewEntriesAsked(db, booked, Signed(booked, db', req), req, tx);
    LogExtends(db, db', booked, Signed(booked, db', req), signers, req);
    forall r | r in db.rides ensures r in db'.rides && PricedAlike(db.rides[r], db'.rides[r]) { PriceStays(db, tx, r); }
    forall r | r in db'.rides && r !in db.rides ensures BookedAs(db'.quotes, db'.rides[r], req) {
      RideNew(db, booked, req, tx, r);
    }
    RidesExtend(db, db', booked, req);
  }

  lemma RunKeepsTraced(w: World, t: Trace, id: nat, i: Input)
    requires Safe(w) && Traced(w, t) && id in w.procs
    ensures Traced(Do(w, Run(id, i)), TraceMove(w, Run(id, i), t))
  {
    hide Inv, Chronicle, Knows, Step, Apply, Serves, Asks, LogFits, BookedAs, Submap, QuotesKept, Signed, JustifiedStep;
    var a, req := Step(w.db, w.keys, w.procs[id], i), Reading(t.requests[id], w.db, i.now);
    var w', booked' := Do(w, Run(id, i)), Signed(t.booked, After(w.db, a.tx), req);
    StepIsFaithful(w.db, w.keys, t.booked, t.requests[id], w.procs[id], i);
    StepActs(w.db, w.keys, w.procs[id], i);
    SameQuotes(w.db);
    assert RequestFits(w, t.booked, t.requests[id], w.procs[id]);
    assert req.read.Some?;
    CommitKeepsTraced(w.db, t.booked, t.signers, req, a.tx);
    assert w'.db == After(w.db, a.tx) && w'.procs == w.procs[id := a.next];
    assert QuotesKept(req.read.value, w'.db) by { QuotesStay(req.read.value, w.db, w'.db); }
    EntryKept(t.booked, t.requests[id], w.procs[id], w.db, i.now);
    forall j | j in w'.procs
      ensures j in t.requests && RequestFits(w', booked', t.requests[id := req][j], w'.procs[j])
    {
      if j != id { RequestStays(w, w', t.booked, booked', t.requests[j], w.procs[j]); }
    }
  }

  lemma EntryKept(booked: Bookings, req: Request, p: Proc, db: Db, now: Instant)
    requires OnCourse(booked, req, p)
    ensures Entry(Reading(req, db, now).entry)
  {
  }

  lemma SameQuotes(db: Db)
    ensures QuotesKept(db, db)
  {
  }

  lemma QuotesStay(a: Db, b: Db, c: Db)
    requires QuotesKept(a, b) && QuotesKept(b, c)
    ensures QuotesKept(a, c)
  {
  }

  lemma QuotedKeepsTraced(w: World, t: Trace, q: QuoteId, quote: Quote)
    requires Traced(w, t)
    ensures Traced(Do(w, Quoted(q, quote)), t)
  {
    var w' := Do(w, Quoted(q, quote));
    assert w'.procs == w.procs && w'.db == w.db.(quotes := w'.db.quotes) && QuotesKept(w.db, w'.db);
    hide BookedAs, AskedFor, Serves, RequestFits, RideGrows;
    assert Submap(t.booked, t.booked);
    forall id | id in w.procs ensures RequestFits(w', t.booked, t.requests[id], w'.procs[id]) {
      RequestStays(w, w', t.booked, t.booked, t.requests[id], w.procs[id]);
    }
    forall n | 0 <= n < |t.signers| ensures AskedFor(w'.db, t.booked, w'.db.log[n], t.signers[n]) {
      EntryStays(w.db, w'.db, t.booked, t.booked, w.db.log[n], t.signers[n]);
    }
    forall r | r in w'.db.rides ensures BookedAs(w'.db.quotes, w'.db.rides[r], t.booked[r]) {
      SameRide(w.db.rides[r]);
      BookingStays(w.db.quotes, w'.db.quotes, w.db.rides[r], w'.db.rides[r], t.booked[r]);
    }
  }

  lemma SameRide(ride: Ride)
    ensures RideGrows(ride, ride) && PricedAlike(ride, ride)
  {
  }

  lemma MoveKeepsTraced(w: World, t: Trace, m: Move)
    requires Safe(w) && Traced(w, t)
    ensures Traced(Do(w, m), TraceMove(w, m, t))
  {
    hide Safe, Inv, Chronicle, Step, Apply, Serves, LogFits, BookedAs, Asks, Entry;
    match m
    case Quoted(q, quote) => QuotedKeepsTraced(w, t, q, quote);
    case Run(id, i) => if id in w.procs { RunKeepsTraced(w, t, id, i); }
    case _ =>
  }

  /** Over every run, whatever is committed was asked for by a request under way. */
  lemma {:induction false} RunsAreTraced(w: World, moves: seq<Move>)
    requires Safe(w) && Traced(w, NO_TRACE)
    ensures Traced(Outcomes(w, moves), TraceOf(w, moves))
  {
    hide Safe, Traced, Do, TraceMove;
    if moves != [] {
      var n := |moves| - 1;
      RunsAreTraced(w, moves[..n]);
      RunsAreSafe(w, moves[..n]);
      MoveKeepsTraced(Outcomes(w, moves[..n]), TraceOf(w, moves[..n]), moves[n]);
    }
  }

  // ---- requests on record are requests of the run ----

  /** The request came in just so, and what it read were the tables at some point of the run. */
  ghost predicate Genuine(w: World, moves: seq<Move>, req: Request) {
    CameIn(moves, req.entry) && (req.read.Some? ==> WereTables(w, moves, req.read.value))
  }

  ghost predicate WereTables(w: World, moves: seq<Move>, db: Db) {
    exists n :: 0 <= n < |moves| && Outcomes(w, moves[..n]).db == db
  }

  ghost predicate AllGenuine(w: World, moves: seq<Move>, t: Trace) {
    && (forall id | id in t.requests :: Genuine(w, moves, t.requests[id]))
    && (forall n | 0 <= n < |t.signers| :: Genuine(w, moves, t.signers[n]))
    && (forall r | r in t.booked :: Genuine(w, moves, t.booked[r]))
  }

  lemma GenuineStays(w: World, moves: seq<Move>, req: Request)
    requires moves != [] && Genuine(w, moves[..|moves| - 1], req)
    ensures Genuine(w, moves, req)
  {
    var before := moves[..|moves| - 1];
    var n :| 0 <= n < |before| && before[n].Arrive? && before[n].p == req.entry;
    assert moves[n].Arrive?;
    if req.read.Some? {
      var m :| 0 <= m < |before| && Outcomes(w, before[..m]).db == req.read.value;
      assert before[..m] == moves[..m];
    }
  }

  lemma {:induction false} RequestsAreGenuine(w: World, moves: seq<Move>)
    ensures AllGenuine(w, moves, TraceOf(w, moves))
  {
    if moves != [] {
      var n := |moves| - 1;
      var t := TraceOf(w, moves[..n]);
      RequestsAreGenuine(w, moves[..n]);
      forall req | Genuine(w, moves[..n], req) ensures Genuine(w, moves, req) { GenuineStays(w, moves, req); }
      NewIsGenuine(w, moves, t);
    }
  }

  lemma NewIsGenuine(w: World, moves: seq<Move>, t: Trace)
    requires moves != [] && AllGenuine(w, moves, t)
    ensures AllGenuine(w, moves, TraceMove(Outcomes(w, moves[..|moves| - 1]), moves[|moves| - 1], t))
  {
    var m, before := moves[|moves| - 1], Outcomes(w, moves[..|moves| - 1]);
    hide Do, Outcomes, Entry;
    if m.Arrive? {
      assert Genuine(w, moves, Request(m.p, None, 0));
    } else if m.Run? && m.id in t.requests {
      assert WereTables(w, moves, before.db);
      assert Genuine(w, moves, Reading(t.requests[m.id], before.db, m.i.now));
    }
    hide Genuine;
  }

  // ---- what it means to a reader ----

  /** The requests of a run from a database without rides, and what they have done. */
  ghost function TraceFrom(db: Db, keys: Keys, moves: seq<Move>): Trace {
    TraceOf(World(db, keys, map[]), moves)
  }

  lemma Accountable(db: Db, keys: Keys, moves: seq<Move>)
    requires Fresh(db)
    ensures var w := World(db, keys, map[]); Safe(Outcomes(w, moves)) && Traced(Outcomes(w, moves), TraceOf(w, moves))
    ensures AllGenuine(World(db, keys, map[]), moves, TraceFrom(db, keys, moves))
  {
    FreshIsSafe(db, keys);
    var w := World(db, keys, map[]);
    assert Traced(w, NO_TRACE);
    hide Safe, Traced;
    RunsAreTraced(w, moves);
    RunsAreSafe(w, moves);
    RequestsAreGenuine(w, moves);
  }

  /** The main theorem: in every world a deployment can reach, the transaction any request
      attempts next is what the request asked for when it came in, by an actor who was the
      ride's in the tables the request read first. */
  lemma CommitsAsAsked(db: Db, keys: Keys, moves: seq<Move>, id: nat, i: Input)
    requires Fresh(db) && id in Outcomes(World(db, keys, map[]), moves).procs
    ensures var w, t := Outcomes(World(db, keys, map[]), moves), TraceFrom(db, keys, moves);
      id in t.requests && Genuine(World(db, keys, map[]), moves, t.requests[id])
      && var tx := Step(w.db, w.keys, w.procs[id], i).tx;
      tx.Some? ==> Asks(w.db, t.booked, Reading(t.requests[id], w.db, i.now), tx.value)
  {
    hide Inv, Chronicle, LogFits, BookedAs, Step, Asks, Serves, Knows, Outcomes, Genuine, Fresh, TraceOf;
    var w, t := Outcomes(World(db, keys, map[]), moves), TraceFrom(db, keys, moves);
    Accountable(db, keys, moves);
    assert RequestFits(w, t.booked, t.requests[id], w.procs[id]);
    StepIsFaithful(w.db, w.keys, t.booked, t.requests[id], w.procs[id], i);
  }

  /** And every entry of the log was committed by a request of the run that asked for it. */
  lemma EntriesAsAsked(db: Db, keys: Keys, moves: seq<Move>, n: nat)
    requires Fresh(db) && n < |Outcomes(World(db, keys, map[]), moves).db.log|
    ensures var w, t := Outcomes(World(db, keys, map[]), moves), TraceFrom(db, keys, moves);
      && |t.signers| == |w.db.log| && AskedFor(w.db, t.booked, w.db.log[n], t.signers[n])
      && Genuine(World(db, keys, map[]), moves, t.signers[n])
  {
    hide Inv, Chronicle, AskedFor, BookedAs, RequestFits, Outcomes, Genuine, Fresh, TraceOf;
    Accountable(db, keys, moves);
  }

  /** A payment settles the way a confirmation said that came in under its own reference. */
  lemma SettledAsConfirmed(db: Db, keys: Keys, moves: seq<Move>, p: PaymentId, ref: PspRef, success: bool)
    requires Fresh(db) && Settled(p, ref, success) in Outcomes(World(db, keys, map[]), moves).db.log
    ensures CameIn(moves, Confirming(LoadByRef(ref, success)))
    ensures var db' := Outcomes(World(db, keys, map[]), moves).db; ref in db'.issued && db'.issued[ref] == p
  {
    hide Outcomes, CameIn, Fresh, TraceOf;
    var log := Outcomes(World(db, keys, map[]), moves).db.log;
    var n :| 0 <= n < |log| && log[n] == Settled(p, ref, success);
    EntriesAsAsked(db, keys, moves, n);
  }

  /** A ride is started only by its driver, arrived, with the code that was the ride's. */
  lemma StartedWithTheCode(db: Db, keys: Keys, moves: seq<Move>, r: RideId)
    requires Fresh(db) && Moved(r, Arrived, InProgress) in Outcomes(World(db, keys, map[]), moves).db.log
    ensures exists d: DriverId, otp, read: Db ::
      && CameIn(moves, Starting(LoadStart(d, r, otp))) && WereTables(World(db, keys, map[]), moves, read)
      && r in read.rides && read.rides[r].driver == Some(d) && read.rides[r].status == Arrived
      && read.rides[r].otp == Some(otp)
  {
    hide Outcomes, CameIn, WereTables, Fresh, TraceOf;
    var log := Outcomes(World(db, keys, map[]), moves).db.log;
    var n :| 0 <= n < |log| && log[n] == Moved(r, Arrived, InProgress);
    EntriesAsAsked(db, keys, moves, n);
    var req := TraceFrom(db, keys, moves).signers[n];
    var d, otp :| StartedBy(req, d, r, otp);
    assert WereTables(World(db, keys, map[]), moves, req.read.value);
  }

  /** A ride is cancelled only by its own rider, or by its own driver, and says by which. */
  lemma CancelledByItsOwn(db: Db, keys: Keys, moves: seq<Move>, r: RideId, from: RideStatus, to: RideStatus)
    requires Fresh(db) && Moved(r, from, to) in Outcomes(World(db, keys, map[]), moves).db.log && Cancelled(to)
    ensures exists actor, reason, read: Db ::
      && CameIn(moves, Cancelling(LoadOwners(r, actor, reason))) && WereTables(World(db, keys, map[]), moves, read)
      && r in read.rides
      && (actor == ByRider(read.rides[r].rider) || (actor.ByDriver? && read.rides[r].driver == Some(actor.driver)))
      && to == if actor.ByDriver? then CancelledByDriver else CancelledByRider
  {
    hide Outcomes, CameIn, WereTables, Fresh, TraceOf;
    var log := Outcomes(World(db, keys, map[]), moves).db.log;
    var n :| 0 <= n < |log| && log[n] == Moved(r, from, to);
    EntriesAsAsked(db, keys, moves, n);
    var req := TraceFrom(db, keys, moves).signers[n];
    if to == CancelledByRider {
      var rider, reason :| CancelledBy(req, r, ByRider(rider), reason);
      assert WereTables(World(db, keys, map[]), moves, req.read.value) && ByRider(rider) == req.entry.cancel.actor;
    } else {
      var d, reason :| CancelledBy(req, r, ByDriver(d), reason);
      assert WereTables(World(db, keys, map[]), moves, req.read.value) && ByDriver(d) == req.entry.cancel.actor;
    }
  }

  /** A payment is attempted only for the rider of its ride, once completed. */
  lemma AttemptedForItsRider(db: Db, keys: Keys, moves: seq<Move>, p: PaymentId, ref: PspRef)
    requires Fresh(db) && Attempted(p, ref) in Outcomes(World(db, keys, map[]), moves).db.log
    ensures exists r: RideId, read: Db ::
      && PaidFor(Outcomes(World(db, keys, map[]), moves).db, p, r) && WereTables(World(db, keys, map[]), moves, read)
      && r in read.rides && read.rides[r].status == Completed && CameIn(moves, Triggering(LoadOwner(read.rides[r].rider, r)))
  {
    hide Fresh, Outcomes, CameIn, WereTables, TraceOf, PaidFor;
    var w := Outcomes(World(db, keys, map[]), moves);
    var n :| 0 <= n < |w.db.log| && w.db.log[n] == Attempted(p, ref);
    EntriesAsAsked(db, keys, moves, n);
    var req := TraceFrom(db, keys, moves).signers[n];
    var rider, r :| TriggeredBy(req, rider, r) && PaidFor(w.db, p, r);
    assert WereTables(World(db, keys, map[]), moves, req.read.value);
  }

  /** Every ride is one that was booked: the rider's, in the tier and by the payment asked
      for, along the route of the rider's own quote; and its fare is that quote's price for
      the tier until it completes. */
  lemma BookedAsAsked(db: Db, keys: Keys, moves: seq<Move>, r: RideId)
    requires Fresh(db) && r in Outcomes(World(db, keys, map[]), moves).db.rides
    ensures var db' := Outcomes(World(db, keys, map[]), moves).db;
      var ride := db'.rides[r];
      && ride.payBy.Some? && CameIn(moves, Creating(LoadQuote(Booking(ride.rider, ride.quote, ride.tier, ride.payBy.value))))
      && ride.quote in db'.quotes && db'.quotes[ride.quote].rider == ride.rider
      && ride.route == db'.quotes[ride.quote].route && ride.tier in db'.quotes[ride.quote].prices
      && (ride.status != Completed ==> ride.fareTotal == Some(db'.quotes[ride.quote].prices[ride.tier]))
  {
    hide Inv, Chronicle, LogFits, RequestsFit, Outcomes, CameIn, WereTables, Fresh, TraceOf;
    Accountable(db, keys, moves);
    var w, t := Outcomes(World(db, keys, map[]), moves), TraceFrom(db, keys, moves);
    assert BookedAs(w.db.quotes, w.db.rides[r], t.booked[r]) && Genuine(World(db, keys, map[]), moves, t.booked[r]);
  }

  /** A view is shown only to the ride's rider or driver as the view has them. */
  lemma ShownToItsOwn(db: Db, keys: Keys, moves: seq<Move>, id: nat, v: View)
    requires Fresh(db) && id in Outcomes(World(db, keys, map[]), moves).procs
    requires Outcomes(World(db, keys, map[]), moves).procs[id] == Done(Shown(v))
    ensures exists r, actor ::
      && CameIn(moves, Getting(ReadCached(r, actor)))
      && (actor == ByRider(v.rider) || (actor.ByDriver? && v.driver == Some(actor.driver)))
  {
    hide Inv, Chronicle, LogFits, BookedAs, Outcomes, CameIn, WereTables, Fresh, TraceOf;
    Accountable(db, keys, moves);
    var w, t := Outcomes(World(db, keys, map[]), moves), TraceFrom(db, keys, moves);
    var req := t.requests[id];
    assert RequestFits(w, t.booked, req, w.procs[id]) && Genuine(World(db, keys, map[]), moves, req);
    assert Shows(req, Shown(v));
    assert CameIn(moves, Getting(ReadCached(req.entry.get.r, req.entry.get.actor)));
  }

  /** An acceptance is reported only to the driver who asked to accept that ride. */
  lemma AcceptedAsAsked(db: Db, keys: Keys, moves: seq<Move>, id: nat, d: DriverId, r: RideId)
    requires Fresh(db) && id in Outcomes(World(db, keys, map[]), moves).procs
    requires Outcomes(World(db, keys, map[]), moves).procs[id] == Done(Accepted(d, r))
    ensures CameIn(moves, Accepting(TakeHeld(d, r)))
  {
    hide Inv, Chronicle, LogFits, BookedAs, Outcomes, CameIn, WereTables, Fresh, TraceOf;
    Accountable(db, keys, moves);
    var w, t := Outcomes(World(db, keys, map[]), moves), TraceFrom(db, keys, moves);
    assert RequestFits(w, t.booked, t.requests[id], w.procs[id]) && Genuine(World(db, keys, map[]), moves, t.requests[id]);
  }

}
