/** Trip time: clock readings in nanoseconds, whole seconds charged, and pauses that are
    remembered only as whole Unix seconds under a key with a two-hour lifetime. */
module TripClock {

  /** Nanoseconds since the Unix epoch. */
  type Instant = int

  const SECOND := 1_000_000_000
  const MICROSECOND := 1_000
  const PAUSED_AT_TTL := 7200 * SECOND

  function Unix(t: Instant): int {
    t / SECOND
  }

  /** A duration in whole seconds, cut toward zero. */
  function WholeSeconds(d: int): int {
    if d >= 0 then d / SECOND else -((-d) / SECOND)
  }

  /** A timestamp as its column keeps it: whole microseconds. */
  function Column(t: Instant): Instant {
    t - t % MICROSECOND
  }

  /** Trip duration net of pauses, never negative. */
  function ChargedSeconds(startedAt: Instant, endedAt: Instant, pausedSeconds: int): (s: nat)
  {
    var net := WholeSeconds(endedAt - startedAt) - pausedSeconds;
    if net < 0 then 0 else net
  }

  /** The whole seconds of the trip, less those of its pauses, or nothing. */
  lemma ChargedExactly(startedAt: Instant, endedAt: Instant, pausedSeconds: int, whole: nat)
    requires whole * 1_000_000_000 <= endedAt - startedAt < (whole + 1) * 1_000_000_000
    ensures ChargedSeconds(startedAt, endedAt, pausedSeconds) == if whole < pausedSeconds then 0 else whole - pausedSeconds
  {
    assert (endedAt - startedAt) / SECOND == whole;
  }

  /** Storing the end of a trip does not change the seconds it is charged for, given a
      start that was read back from its column: a receipt recomputes the same duration. */
  lemma StoringKeepsCharge(startedAt: Instant, endedAt: Instant, pausedSeconds: nat)
    requires startedAt == Column(startedAt)
    ensures ChargedSeconds(startedAt, Column(endedAt), pausedSeconds)
         == ChargedSeconds(startedAt, endedAt, pausedSeconds)
  {
  }

  /** Rounding to the nearest microsecond instead of cutting would break this: a trip of
      one second less a nanosecond would be charged nothing and receipted as a second. */
  lemma RoundingWouldNot()
    ensures ChargedSeconds(0, 999_999_999, 0) == 0 && ChargedSeconds(0, Column(999_999_999 + 500), 0) == 1
  {
  }

  // ---- pauses ----

  datatype Pause = Pause(from: Instant, to: Instant)
  {
    function Length(): int {
      to - from
    }

    /** Whether the key that remembers the start is still there at the end. */
    predicate Remembered() {
      Length() < PAUSED_AT_TTL
    }

    /** The seconds folded into the trip when the pause ends. */
    function Folded(): nat {
      if Remembered() && Unix(to) >= Unix(from) then Unix(to) - Unix(from) else 0
    }
  }

  function FoldedSeconds(pauses: seq<Pause>): nat {
    if pauses == [] then 0 else FoldedSeconds(pauses[..|pauses| - 1]) + pauses[|pauses| - 1].Folded()
  }

  /** Nanoseconds actually spent in remembered pauses. */
  function PausedTime(pauses: seq<Pause>): int {
    if pauses == [] then 0
    else
      var p := pauses[|pauses| - 1];
      PausedTime(pauses[..|pauses| - 1]) + if p.Remembered() then p.Length() else 0
  }

  /** The pauses follow one another inside the trip. */
  predicate InOrder(startedAt: Instant, pauses: seq<Pause>, now: Instant) {
    if pauses == [] then startedAt <= now
    else
      var p := pauses[|pauses| - 1];
      p.from <= p.to <= now && InOrder(startedAt, pauses[..|pauses| - 1], p.from)
  }

  lemma FoldedNearLength(p: Pause)
    requires p.from <= p.to
    ensures p.Remembered() ==>
      -SECOND < p.Folded() * SECOND - p.Length() < SECOND
  {
  }

  /** Each pause adds less than a second of error, and pauses never exceed the trip. */
  lemma {:induction false} FoldedNearPausedTime(startedAt: Instant, pauses: seq<Pause>, now: Instant)
    requires InOrder(startedAt, pauses, now)
    ensures var n, folded, paused := |pauses|, FoldedSeconds(pauses), PausedTime(pauses);
      && -n * SECOND <= folded * SECOND - paused <= n * SECOND
      && (n > 0 ==> -n * SECOND < folded * SECOND - paused < n * SECOND)
      && 0 <= paused <= now - startedAt
  {
    if pauses != [] {
      var p, before := pauses[|pauses| - 1], pauses[..|pauses| - 1];
      FoldedNearPausedTime(startedAt, before, p.from);
      FoldedNearLength(p);
    }
  }

  /** What a trip is charged for, from the start as stored and the folded pauses. */
  function Charge(startedAt: Instant, pauses: seq<Pause>, endedAt: Instant): nat {
    ChargedSeconds(Column(startedAt), endedAt, FoldedSeconds(pauses))
  }

  /** A trip with n pauses is charged for at least nothing and at most its whole length,
      and for less than n + 1 seconds more or less than the time it was not paused,
      where a pause of two hours or more counts as driving. */
  lemma ChargeNearNetTime(startedAt: Instant, pauses: seq<Pause>, endedAt: Instant)
    requires InOrder(startedAt, pauses, endedAt)
    ensures var net, charge := endedAt - startedAt - PausedTime(pauses), Charge(startedAt, pauses, endedAt);
      && 0 <= charge <= WholeSeconds(endedAt - Column(startedAt))
      && -(|pauses| + 1) * SECOND < charge * SECOND - net < (|pauses| + 1) * SECOND
  {
    FoldedNearPausedTime(startedAt, pauses, endedAt);
    var raw := WholeSeconds(endedAt - Column(startedAt));
    assert endedAt - Column(startedAt) == raw * SECOND + (endedAt - Column(startedAt)) % SECOND;
  }

  predicate AllShort(pauses: seq<Pause>) {
    forall i | 0 <= i < |pauses| :: pauses[i].Remembered()
  }

  function TotalPaused(pauses: seq<Pause>): int {
    if pauses == [] then 0 else TotalPaused(pauses[..|pauses| - 1]) + pauses[|pauses| - 1].Length()
  }

  /** How far the seconds charged are above the time not paused, in nanoseconds. */
  function Overcharge(startedAt: Instant, pauses: seq<Pause>, endedAt: Instant): int {
    Charge(startedAt, pauses, endedAt) * SECOND - (endedAt - startedAt - TotalPaused(pauses))
  }

  lemma {:induction false} LongPauseIsLost(startedAt: Instant, pauses: seq<Pause>, now: Instant)
    requires InOrder(startedAt, pauses, now)
    ensures PausedTime(pauses) <= TotalPaused(pauses)
    ensures if AllShort(pauses) then PausedTime(pauses) == TotalPaused(pauses)
            else TotalPaused(pauses) - PausedTime(pauses) >= PAUSED_AT_TTL
  {
    if pauses != [] {
      var n := |pauses| - 1;
      LongPauseIsLost(startedAt, pauses[..n], pauses[n].from);
      assert AllShort(pauses) <==> AllShort(pauses[..n]) && pauses[n].Remembered();
    }
  }

  /** The charge is within n + 1 seconds of the time not paused while each of the n pauses
      stays under two hours; as soon as one does not, it is two hours less n + 1 seconds too
      much or more, which is no longer within n + 1 seconds of it for any n below 3600. */
  lemma ShortPausesAllCount(startedAt: Instant, pauses: seq<Pause>, endedAt: Instant)
    requires InOrder(startedAt, pauses, endedAt)
    ensures var slack, over := (|pauses| + 1) * SECOND, Overcharge(startedAt, pauses, endedAt);
      && (if AllShort(pauses) then -slack < over < slack else over > PAUSED_AT_TTL - slack)
      && (|pauses| < 3600 ==> (-slack < over < slack <==> AllShort(pauses)))
  {
    ChargeNearNetTime(startedAt, pauses, endedAt);
    LongPauseIsLost(startedAt, pauses, endedAt);
  }

  /** A pause of exactly two hours is one that is lost: its key is gone when it ends, and
      all of it is charged. */
  lemma TwoHourPauseIsLost(startedAt: Instant)
    ensures var twoHours := 7_200_000_000_000; var pauses := [Pause(startedAt, startedAt + twoHours)];
      && InOrder(startedAt, pauses, startedAt + twoHours)
      && TotalPaused(pauses) == twoHours && Charge(startedAt, pauses, startedAt + twoHours) == 7200
  {
    var pauses := [Pause(startedAt, startedAt + PAUSED_AT_TTL)];
    assert pauses[..0] == [];
    assert FoldedSeconds(pauses) == 0;
    assert PAUSED_AT_TTL + startedAt % MICROSECOND == 7200 * SECOND + startedAt % MICROSECOND;
    assert startedAt + PAUSED_AT_TTL - Column(startedAt) == 7200 * SECOND + startedAt % MICROSECOND;
  }

}
