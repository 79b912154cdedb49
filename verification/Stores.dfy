/** The two stores the services share, and what it means for a service method to be one
    request of the protocol run alone. */
module Stores {
  import opened Prelude
  import opened Ledger
  import opened LedgerInvariants
  import opened Redis
  import opened Protocol
  import opened ProtocolSafety
  import opened Coherence
  import opened CoherentRuns

  class Store {
    var pg: Db
    var redis: Keys

    constructor (pg: Db, redis: Keys)
      ensures this.pg == pg && this.redis == redis
    {
      this.pg := pg;
      this.redis := redis;
    }

    /** The stores as they are, with a request about to take the step p. */
    ghost function At(p: Proc): Solo
      reads this
    {
      Solo(pg, redis, p)
    }
  }

  datatype Error =
    | NotFound | Forbidden | InvalidState | AlreadyActive | QuoteNotFound | QuoteNotOwned | QuoteExpired
    | TierUnavailable | OfferExpired | RideGone | InvalidOtp | RateLimited | RetriesExhausted

  datatype Reply<+T> = Success(value: T) | Failure(error: Error)

  /** From s, a request running alone can come to t. */
  ghost predicate Alone(s: Solo, t: Solo) {
    exists inputs: seq<Input> :: RunAlone(s, inputs) == t
  }

  lemma Here(s: Solo)
    ensures Alone(s, s)
  {
    assert RunAlone(s, []) == s;
  }

  lemma Next(s: Solo, t: Solo, i: Input) returns (u: Solo)
    requires Alone(s, t)
    ensures u == StepAlone(t, i) && Alone(s, u)
  {
    var inputs: seq<Input> :| RunAlone(s, inputs) == t;
    assert (inputs + [i])[..|inputs|] == inputs;
    u := StepAlone(t, i);
    assert RunAlone(s, inputs + [i]) == u;
  }

  lemma {:induction false} RunJoins(s: Solo, first: seq<Input>, last: seq<Input>)
    ensures RunAlone(s, first + last) == RunAlone(RunAlone(s, first), last)
  {
    if last == [] {
      assert first + last == first;
    } else {
      var n := |last| - 1;
      RunJoins(s, first, last[..n]);
      assert (first + last)[..|first + last| - 1] == first + last[..n];
    }
  }

  lemma Joined(s: Solo, t: Solo, u: Solo)
    requires Alone(s, t) && Alone(t, u)
    ensures Alone(s, u)
  {
    var first: seq<Input> :| RunAlone(s, first) == t;
    var second: seq<Input> :| RunAlone(t, second) == u;
    RunJoins(s, first, second);
  }

  /** A service method that is a request run alone keeps the tables sound and the keys in
      step with them. */
  lemma AloneStaysSound(s: Solo, t: Solo)
    requires Steady(s) && Alone(s, t)
    ensures Steady(t)
  {
    var inputs: seq<Input> :| RunAlone(s, inputs) == t;
    AloneStaysSteady(s, inputs);
  }

  /** Every service method promises that its whole effect is one request of the protocol
      run alone; hence each keeps the tables sound and the keys in step with them. */
  lemma MethodsKeepCoherence(db: Db, k: Keys, p: Proc, t: Solo)
    requires Inv(db) && Coherent(db, k) && Entry(p)
    requires Alone(Solo(db, k, p), t) && t.proc.Done?
    ensures Inv(t.db) && Coherent(t.db, t.keys)
  {
    hide Inv, Exact, Alone, Entry, Knows;
    EntrySteady(CoherentRuns.Stores(db, k), p);
    AloneStaysSound(Solo(db, k, p), t);
  }

}
