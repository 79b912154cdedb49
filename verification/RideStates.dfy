/** The ride state machine: its table of legal moves and what follows from the table. */
module RideStates {

  datatype RideStatus =
    | Requested | Matching | DriverAssigned | DriverArriving | Arrived | InProgress
    | Completed | CancelledByRider | CancelledByDriver | Expired

  const ALL_STATUSES: seq<RideStatus> :=
    [Requested, Matching, DriverAssigned, DriverArriving, Arrived, InProgress,
     Completed, CancelledByRider, CancelledByDriver, Expired]

  /** The table: where a ride may go from each status. */
  predicate Legal(from: RideStatus, to: RideStatus) {
    match from
    case Requested => to == Matching || Cancelled(to)
    case Matching => to == DriverAssigned || to == Expired || Cancelled(to)
    case DriverAssigned => to == DriverArriving || Cancelled(to)
    case DriverArriving => to == Arrived || Cancelled(to)
    case Arrived => to == InProgress || Cancelled(to)
    case InProgress => to == Completed
    case _ => false
  }

  predicate Cancelled(s: RideStatus) {
    s == CancelledByRider || s == CancelledByDriver
  }

  /** The seventeen legal moves, listed. */
  ghost const LEGAL_MOVES: set<(RideStatus, RideStatus)> :=
    {(Requested, Matching), (Matching, DriverAssigned), (DriverAssigned, DriverArriving), (DriverArriving, Arrived),
     (Arrived, InProgress), (InProgress, Completed), (Matching, Expired),
     (Requested, CancelledByRider), (Matching, CancelledByRider), (DriverAssigned, CancelledByRider),
     (DriverArriving, CancelledByRider), (Arrived, CancelledByRider),
     (Requested, CancelledByDriver), (Matching, CancelledByDriver), (DriverAssigned, CancelledByDriver),
     (DriverArriving, CancelledByDriver), (Arrived, CancelledByDriver)}

  /** The statuses from which `to` is a legal move. */
  method SourcesFor(to: RideStatus) returns (out: seq<RideStatus>)
    ensures forall s :: s in out <==> Legal(s, to)
    ensures forall s :: s in out <==> (s, to) in LEGAL_MOVES
  {
    out := [];
    for i := 0 to |ALL_STATUSES|
      invariant forall s :: s in out <==> s in ALL_STATUSES[..i] && Legal(s, to)
    {
      if Legal(ALL_STATUSES[i], to) {
        out := out + [ALL_STATUSES[i]];
      }
    }
    assert ALL_STATUSES[..|ALL_STATUSES|] == ALL_STATUSES;
    forall s: RideStatus ensures s in ALL_STATUSES { Listed(s); }
  }

  lemma Listed(s: RideStatus)
    ensures s in ALL_STATUSES
  {
  }

  /** The statuses the two partial unique indexes range over. */
  predicate Active(s: RideStatus) {
    s.Requested? || s.Matching? || s.DriverAssigned? || s.DriverArriving? || s.Arrived? || s.InProgress?
  }

  /** Statuses whose rides have a driver; a cancelled ride may or may not have had one. */
  predicate Driven(s: RideStatus) {
    s.DriverAssigned? || s.DriverArriving? || s.Arrived? || s.InProgress? || s.Completed?
  }

  /** How far along a ride is. */
  function Rank(s: RideStatus): nat {
    match s
    case Requested => 0
    case Matching => 1
    case DriverAssigned => 2
    case DriverArriving => 3
    case Arrived => 4
    case InProgress => 5
    case _ => 6
  }

  /** Every legal move strictly raises the rank, so no status is ever revisited; the
      final statuses are exactly those without a move. */
  lemma LegalRaisesRank(from: RideStatus, to: RideStatus)
    ensures Legal(from, to) ==> Rank(from) < Rank(to) <= 6
    ensures !Active(from) <==> forall next :: !Legal(from, next)
  {
    if Active(from) {
      assert Legal(from, CancelledByRider) || Legal(from, Completed);
    }
  }

}
