/** What becomes of the claims of the offer loop over every interleaved run in which only
    this program writes Redis: an acceptance takes a claim or assigns nobody, and no claim
    is taken twice, whatever is evicted and wherever a request stops. */
module OfferClaims {
  import opened Prelude
  import opened Ledger
  import opened LedgerInvariants
  import opened LedgerGrowth
  import opened Redis
  import opened Protocol
  import opened ProtocolSafety
  import opened ProtocolMatching
  import opened OfferSteps

  // ---- counting ----

  /** How often driver d was claimed for ride r, how often an acceptance took such a claim,
      and how often d was assigned to r. */
  datatype Tally = Tally(claims: nat, takings: nat, assignments: nat)

  /** The step claims driver d, who holds no offer, for ride r. */
  predicate Claims(k: Keys, p: Proc, d: DriverId, r: RideId) {
    match p
    case Offering(Claim(s, _, left), _) => s.r == r && left != [] && left[0] == d && d !in k.offerDriver
    case _ => false
  }

  /** The step is an acceptance that finds d's claim for r, and deletes it. */
  predicate Takes(k: Keys, p: Proc, d: DriverId, r: RideId) {
    p == Accepting(TakeHeld(d, r)) && Holds(k, d, r)
  }

  /** The step commits an assignment of d to r. */
  predicate Assigns(db: Db, tx: Option<Tx>, d: DriverId, r: RideId) {
    tx.Some? && Ok(db, tx.value) && tx.value.AssignRide? && tx.value.d == d && tx.value.r == r
  }

  predicate Holds(k: Keys, d: DriverId, r: RideId) {
    Lookup(k.offerDriver, d) == Some(r)
  }

  function One(b: bool): nat {
    if b then 1 else 0
  }

  function CountStep(w: World, m: Move, d: DriverId, r: RideId, n: Tally): Tally {
    if m.Run? && m.id in w.procs then
      var p := w.procs[m.id];
      Tally(n.claims + One(Claims(w.keys, p, d, r)), n.takings + One(Takes(w.keys, p, d, r)),
            n.assignments + One(Assigns(w.db, Step(w.db, w.keys, p, m.i).tx, d, r)))
    else n
  }

  function TallyOf(w: World, moves: seq<Move>, d: DriverId, r: RideId): Tally {
    if moves == [] then Tally(0, 0, 0)
    else
      var before := moves[..|moves| - 1];
      CountStep(Outcomes(w, before), moves[|moves| - 1], d, r, TallyOf(w, before, d, r))
  }

  // ---- one step ----

  /** The request has taken d's claim for r and assigns next. */
  predicate AboutToAssign(p: Proc, d: DriverId, r: RideId) {
    p == Accepting(Assign(d, r))
  }

  /** What one step does to a claim: it is held only if it was or is now made, and leaves
      off being held to be taken; an assignment follows its own taking. */
  ghost predicate Conserves(db: Db, k: Keys, p: Proc, a: Act, d: DriverId, r: RideId) {
    && Shaped(a.next)
    && One(Holds(a.keys, d, r)) + One(Takes(k, p, d, r)) <= One(Holds(k, d, r)) + One(Claims(k, p, d, r))
    && One(AboutToAssign(a.next, d, r)) + One(Assigns(db, a.tx, d, r)) <= One(AboutToAssign(p, d, r)) + One(Takes(k, p, d, r))
  }

  lemma OfferHolds(k: Keys, pc: OfferPc, after: Proc, i: Input, d: DriverId, r: RideId)
    ensures var p, a := Offering(pc, after), OfferStep(k, pc, after, i);
      One(Holds(a.keys, d, r)) <= One(Holds(k, d, r)) + One(Claims(k, p, d, r))
  {
  }

  lemma OfferConserves(db: Db, k: Keys, pc: OfferPc, after: Proc, i: Input, d: DriverId, r: RideId)
    requires IsTail(after)
    ensures Conserves(db, k, Offering(pc, after), OfferStep(k, pc, after, i), d, r)
  {
    OfferHolds(k, pc, after, i, d, r);
    hide Eligible, AllPooled, Ok, Holds, Claims, ClaimOffer, RecordOffer;
  }

  lemma AcceptConserves(db: Db, k: Keys, pc: AcceptPc, i: Input, d: DriverId, r: RideId)
    ensures Conserves(db, k, Accepting(pc), AcceptStep(db, k, pc, i), d, r)
  {
    hide Ok, AlreadyAssigned;
  }

  lemma QuietConserves(db: Db, k: Keys, p: Proc, a: Act, d: DriverId, r: RideId)
    requires !p.Offering? && !p.Accepting? && LeavesTried(k, a) && LeavesClaims(k, a)
    ensures Conserves(db, k, p, a, d, r)
  {
    hide Ok;
  }

  lemma StepConserves(db: Db, k: Keys, p: Proc, i: Input, d: DriverId, r: RideId)
    requires Shaped(p)
    ensures Conserves(db, k, p, Step(db, k, p, i), d, r)
  {
    hide Conserves, LeavesTried, LeavesClaims;
    match p
    case Offering(pc, after) =>
      hide OfferStep;
      OfferConserves(db, k, pc, after, i, d, r);
    case Accepting(pc) =>
      hide AcceptStep;
      AcceptConserves(db, k, pc, i, d, r);
    case _ =>
      OthersStep(db, k, p, i);
      hide Step;
      QuietConserves(db, k, p, Step(db, k, p, i), d, r);
  }

  // ---- every run ----

  function AtAssign(procs: map<nat, Proc>, d: DriverId, r: RideId): set<nat> {
    set id | id in procs && AboutToAssign(procs[id], d, r)
  }

  ghost predicate Accounted(w: World, n: Tally, d: DriverId, r: RideId) {
    && (forall id | id in w.procs :: Shaped(w.procs[id]))
    && n.takings + One(Holds(w.keys, d, r)) <= n.claims
    && n.assignments + |AtAssign(w.procs, d, r)| <= n.takings
    && n.assignments == One(DrivenBy(w.db, r, d))
  }

  lemma AtAssignAfter(procs: map<nat, Proc>, id: nat, p: Proc, d: DriverId, r: RideId)
    requires id in procs
    ensures |AtAssign(procs[id := p], d, r)| + One(AboutToAssign(procs[id], d, r))
         == |AtAssign(procs, d, r)| + One(AboutToAssign(p, d, r))
  {
    hide AboutToAssign;
    var others := AtAssign(procs, d, r) - {id};
    assert AtAssign(procs, d, r) == if AboutToAssign(procs[id], d, r) then others + {id} else others;
    assert AtAssign(procs[id := p], d, r) == if AboutToAssign(p, d, r) then others + {id} else others;
  }

  /** A ride has a driver from the one assignment that commits, and for good. */
  lemma CarriedByAssignment(db: Db, tx: Option<Tx>, d: DriverId, r: RideId)
    requires Inv(db) && JustifiedStep(db, tx)
    ensures One(DrivenBy(After(db, tx), r, d)) == One(DrivenBy(db, r, d)) + One(Assigns(db, tx, d, r))
  {
    if tx.Some? {
      if DrivenBy(After(db, tx), r, d) { DriverOnlyByAssignment(db, tx.value, r); }
      ApplyExtends(db, tx.value);
      assert RidesGrow(db, Apply(db, tx.value));
      if Assigns(db, tx, d, r) { AssignedIsCarried(db, tx.value); }
      hide Ok, Effect, Inv, Justified, Extends;
    }
  }

  lemma AssignedIsCarried(db: Db, tx: Tx)
    requires Inv(db) && tx.AssignRide? && Ok(db, tx)
    ensures DrivenBy(Apply(db, tx), tx.r, tx.d) && !DrivenBy(db, tx.r, tx.d)
  {
  }

  lemma RunIsAccounted(w: World, id: nat, i: Input, n: Tally, d: DriverId, r: RideId)
    requires Safe(w) && Accounted(w, n, d, r) && id in w.procs
    ensures Accounted(Do(w, Run(id, i)), CountStep(w, Run(id, i), d, r, n), d, r)
  {
    var a := Step(w.db, w.keys, w.procs[id], i);
    StepConserves(w.db, w.keys, w.procs[id], i, d, r);
    AtAssignAfter(w.procs, id, a.next, d, r);
    StepActs(w.db, w.keys, w.procs[id], i);
    CarriedByAssignment(w.db, a.tx, d, r);
    hide Safe, Step, Shaped, Holds, Takes, Claims, Assigns, AboutToAssign, AtAssign, DrivenBy, After;
  }

  lemma EntryIsShaped(p: Proc, d: DriverId, r: RideId)
    requires Entry(p)
    ensures Shaped(p) && !AboutToAssign(p, d, r)
  {
  }

  lemma DoIsAccounted(w: World, m: Move, n: Tally, d: DriverId, r: RideId)
    requires Safe(w) && Accounted(w, n, d, r) && !m.Havoc?
    ensures Accounted(Do(w, m), CountStep(w, m, d, r, n), d, r)
  {
    match m
    case Run(id, i) =>
      hide Accounted, Step, Shaped;
      if id in w.procs { RunIsAccounted(w, id, i, n, d, r); }
    case Arrive(id, p) =>
      if id !in w.procs && Entry(p) {
        EntryIsShaped(p, d, r);
        assert AtAssign(w.procs[id := p], d, r) == AtAssign(w.procs, d, r);
      }
      hide Entry, Shaped;
    case Stop(id) =>
      hide Shaped, AboutToAssign;
      SubsetSize(AtAssign(w.procs - {id}, d, r), AtAssign(w.procs, d, r));
    case Quoted(q, quote) =>
      hide Shaped, AtAssign;
      JustifiedQuote(w.db, q, quote);
      CarriedByAssignment(w.db, Some(InsertQuote(q, quote)), d, r);
    case Evict(_) =>
      hide Shaped, AtAssign;
  }

  lemma {:induction false} RunsAreAccounted(w: World, moves: seq<Move>, d: DriverId, r: RideId)
    requires Safe(w) && Undisturbed(moves) && Accounted(w, Tally(0, 0, 0), d, r)
    ensures Accounted(Outcomes(w, moves), TallyOf(w, moves, d, r), d, r)
  {
    hide Safe, Accounted, Do, CountStep;
    if moves != [] {
      var n := |moves| - 1;
      assert Undisturbed(moves[..n]);
      RunsAreAccounted(w, moves[..n], d, r);
      RunsAreSafe(w, moves[..n]);
      DoIsAccounted(Outcomes(w, moves[..n]), moves[n], TallyOf(w, moves[..n], d, r), d, r);
    }
  }

  /** From a database without rides, over any interleaving of requests with evictions: each
      assignment of a driver to a ride has taken a claim of that driver made for that ride,
      no claim is taken twice or taken and still held, and the ride carries the driver exactly
      when that assignment was made, which happens once. */
  lemma AssignmentsConsumeClaims(db: Db, moves: seq<Move>, d: DriverId, r: RideId)
    requires Fresh(db) && Undisturbed(moves)
    ensures var w, n := Outcomes(World(db, FLUSHED, map[]), moves), TallyOf(World(db, FLUSHED, map[]), moves, d, r);
      && n.assignments <= n.takings
      && n.takings + One(Holds(w.keys, d, r)) <= n.claims
      && n.assignments == One(DrivenBy(w.db, r, d))
  {
    var w0 := World(db, FLUSHED, map[]);
    assert AtAssign(w0.procs, d, r) == {};
    FreshIsSafe(db, FLUSHED);
    RunsAreAccounted(w0, moves, d, r);
    hide Safe, TallyOf, Outcomes, Shaped;
  }

}
