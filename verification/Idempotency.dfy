/** Idempotency keys: requests that share a key, actor and endpoint race to store one
    response, and the losers replay the winner's. One stored row and any number of
    requests are modelled; each database statement is one step. */
module Idempotency {
  import opened Prelude

  datatype Reply = Reply(status: int, body: string)

  datatype Row = Row(hash: string, reply: Reply)

  /** How a request came by its answer. */
  datatype How =
    | Replayed      // the row was there before the handler ran
    | Reused        // the row was there, stored for a different request
    | Failed        // the handler answered 500 or above; nothing is stored
    | Stored        // this request wrote the row
    | Lost          // another request wrote the row meanwhile; its reply is replayed
    | Unmatched     // another, different request wrote the row meanwhile

  datatype Phase =
    | Loading
    | Running
    | Storing(own: Reply)
    | Reloading(own: Reply)
    | Answered(reply: Reply, how: How)

  datatype Request = Request(hash: string, phase: Phase)

  /** `writes` counts how often the row was written. */
  datatype State = State(row: Option<Row>, requests: map<nat, Request>, writes: nat)

  const KEY_REUSED := Reply(422, "IDEMPOTENCY_KEY_REUSED")

  predicate IsBlank(s: string) {
    forall i | 0 <= i < |s| :: s[i] in {' ', '\t', '\n', '\r'}
  }

  function JsonOrNull(body: string): string {
    if IsBlank(body) then "null" else body
  }

  /** The database column normalises JSON text: it prints the value it parsed. How is left
      open, but printed text is never blank, prints as itself, and ends in no newline. */
  type Normaliser = string -> string

  ghost predicate IsNormaliser(norm: Normaliser) {
    forall s :: norm(norm(s)) == norm(s) && !IsBlank(norm(s)) && !EndsInNewline(norm(s))
  }

  predicate EndsInNewline(s: string) {
    s != [] && s[|s| - 1] == '\n'
  }

  /** A reply as the column keeps it. */
  function Kept(norm: Normaliser, r: Reply): Reply {
    Reply(r.status, norm(JsonOrNull(r.body)))
  }

  /** A handler that never sets a status answers 200. */
  function Completed(handler: Reply): Reply {
    if handler.status == 0 then handler.(status := 200) else handler
  }

  /** One step of a request: the row and the request's phase afterwards. `handler` is
      what the wrapped handler wrote; it matters only while Running. */
  function Advance(norm: Normaliser, row: Option<Row>, hash: string, phase: Phase, handler: Reply)
    : (Option<Row>, Phase)
  {
    match phase
    case Loading =>
      (match row
       case None => (row, Running)
       case Some(r) =>
         if r.hash != hash then (row, Answered(KEY_REUSED, Reused)) else (row, Answered(r.reply, Replayed)))
    case Running =>
      var own := Completed(handler);
      if own.status < 500 then (row, Storing(own)) else (row, Answered(own, Failed))
    case Storing(own) =>
      if row.None? then (Some(Row(hash, Kept(norm, own))), Answered(own, Stored)) else (row, Reloading(own))
    case Reloading(own) =>
      (match row
       case Some(r) =>
         if r.hash == hash then (row, Answered(r.reply, Lost)) else (row, Answered(own, Unmatched))
       case None => (row, Answered(own, Unmatched)))
    case Answered(_, _) => (row, phase)
  }

  datatype Action = Arrive(id: nat, hash: string) | Step(id: nat, handler: Reply)

  function Next(norm: Normaliser, s: State, a: Action): State {
    match a
    case Arrive(id, hash) =>
      if id in s.requests then s else s.(requests := s.requests[id := Request(hash, Loading)])
    case Step(id, handler) =>
      if id !in s.requests then s
      else
        var q := s.requests[id];
        var (row, phase) := Advance(norm, s.row, q.hash, q.phase, handler);
        State(row, s.requests[id := q.(phase := phase)], s.writes + if row == s.row then 0 else 1)
  }

  const EMPTY := State(None, map[], 0)

  function Run(norm: Normaliser, actions: seq<Action>): State {
    if actions == [] then EMPTY
    else Next(norm, Run(norm, actions[..|actions| - 1]), actions[|actions| - 1])
  }

  // ---- the middleware without interference ----

  /** What a handler does to its response writer. */
  datatype Call = Header(status: int) | Body(text: string)

  function Bodies(calls: seq<Call>): string {
    if calls == [] then ""
    else
      var c := calls[|calls| - 1];
      Bodies(calls[..|calls| - 1]) + if c.Body? then c.text else ""
  }

  /** The status set last; a body written while none is set makes it 200. */
  function Status(calls: seq<Call>): int {
    if calls == [] then 0
    else
      var before := Status(calls[..|calls| - 1]);
      match calls[|calls| - 1]
      case Header(status) => status
      case Body(_) => if before == 0 then 200 else before
  }

  function Captured(calls: seq<Call>): Reply {
    Reply(Status(calls), Bodies(calls))
  }

  lemma CapturedSnoc(calls: seq<Call>, c: Call)
    ensures Bodies(calls + [c]) == Bodies(calls) + if c.Body? then c.text else ""
    ensures Status(calls + [c]) == match c case Header(status) => status case Body(_) => Completed(Captured(calls)).status
  {
    assert (calls + [c])[..|calls|] == calls;
  }

  /** A handler that sets its status and encodes one JSON value, as all wrapped handlers
      do, is captured with that status and a body that ends in a newline. */
  lemma EncodedReply(status: int, json: string)
    requires status != 0
    ensures Completed(Captured([Header(status), Body(json + "\n")])) == Reply(status, json + "\n")
    ensures EndsInNewline(json + "\n")
  {
    CapturedSnoc([], Header(status));
    CapturedSnoc([Header(status)], Body(json + "\n"));
    assert [] + [Header(status)] == [Header(status)];
    assert [Header(status)] + [Body(json + "\n")] == [Header(status), Body(json + "\n")];
  }

  /** Buffers what the handler writes. */
  class CaptureWriter {
    var status: int
    var body: string
    ghost var calls: seq<Call>

    ghost predicate Valid()
      reads this
    {
      Reply(status, body) == Captured(calls)
    }

    constructor ()
      ensures Valid() && calls == []
    {
      status, body, calls := 0, "", [];
    }

    method WriteHeader(status: int)
      requires Valid()
      modifies this
      ensures Valid() && calls == old(calls) + [Header(status)]
      ensures this.status == status && body == old(body)
    {
      CapturedSnoc(calls, Header(status));
      this.status := status;
      calls := calls + [Header(status)];
    }

    method Write(b: string) returns (n: nat)
      requires Valid()
      modifies this
      ensures Valid() && calls == old(calls) + [Body(b)] && n == |b|
      ensures status == (if old(status) == 0 then 200 else old(status)) && body == old(body) + b
    {
      CapturedSnoc(calls, Body(b));
      if status == 0 {
        status := 200;
      }
      body := body + b;
      calls := calls + [Body(b)];
      n := |b|;
    }

    method Flush() returns (r: Reply)
      ensures r == Reply(status, body)
    {
      r := Reply(status, body);
    }
  }

  /** The answer of a request whose steps nobody interleaves with. */
  function Alone(norm: Normaliser, row: Option<Row>, hash: string, handler: Reply): (Option<Row>, Phase) {
    var (row1, phase1) := Advance(norm, row, hash, Loading, handler);
    var (row2, phase2) := Advance(norm, row1, hash, phase1, handler);
    Advance(norm, row2, hash, phase2, handler)
  }

  class Middleware {
    const norm: Normaliser
    var row: Option<Row>

    constructor (norm: Normaliser)
      ensures this.norm == norm && row == None
    {
      this.norm := norm;
      row := None;
    }

    method InsertIdemKey(hash: string, r: Reply) returns (inserted: bool)
      modifies this
      ensures inserted <==> old(row).None?
      ensures row == if inserted then Some(Row(hash, Kept(norm, r))) else old(row)
      ensures inserted ==>
        row == Some(Row(hash, Reply(r.status, norm(
          if forall i | 0 <= i < |r.body| :: r.body[i] in {' ', '\t', '\n', '\r'} then "null" else r.body))))
    {
      inserted := row.None?;
      if inserted {
        row := Some(Row(hash, Reply(r.status, norm(JsonOrNull(r.body)))));
      }
    }

    /** Runs the handler, which makes the given calls, on a capturing writer. */
    method RunHandler(handler: seq<Call>) returns (cw: CaptureWriter)
      ensures fresh(cw) && cw.Valid() && cw.calls == handler
    {
      cw := new CaptureWriter();
      for n := 0 to |handler|
        invariant cw.Valid() && cw.calls == handler[..n]
      {
        match handler[n] {
          case Header(status) => cw.WriteHeader(status);
          case Body(text) => var _ := cw.Write(text);
        }
        assert handler[..n + 1] == handler[..n] + [handler[n]];
      }
      assert handler[..|handler|] == handler;
    }

    /** `handler` are the calls the wrapped handler makes if it runs. */
    method Serve(hash: string, handler: seq<Call>) returns (reply: Reply, ghost how: How)
      modifies this
      ensures (row, Answered(reply, how)) == Alone(norm, old(row), hash, Captured(handler))
      ensures how != Lost && how != Unmatched
      ensures old(row).Some? ==> row == old(row)
      ensures old(row).Some? ==>
        reply == if old(row).value.hash == hash then old(row).value.reply else Reply(422, "IDEMPOTENCY_KEY_REUSED")
      ensures old(row).None? ==>
        && reply == Reply(if Status(handler) == 0 then 200 else Status(handler), Bodies(handler))
        && var blank := forall i | 0 <= i < |reply.body| :: reply.body[i] in {' ', '\t', '\n', '\r'};
           var kept := Reply(reply.status, norm(if blank then "null" else reply.body));
           row == if reply.status < 500 then Some(Row(hash, kept)) else None
    {
      match row
      case Some(stored) =>
        if stored.hash != hash {
          return KEY_REUSED, Reused;
        }
        return stored.reply, Replayed;
      case None =>
        var cw := RunHandler(handler);
        if cw.status == 0 {
          cw.status := 200;
        }
        how := Failed;
        if cw.status < 500 {
          var inserted := InsertIdemKey(hash, Reply(cw.status, cw.body));
          how := Stored;
        }
        reply := cw.Flush();
    }
  }

  // ---- every interleaving ----

  ghost predicate AnswerFits(norm: Normaliser, row: Option<Row>, q: Request) {
    match q.phase
    case Reloading(_) => row.Some?
    case Answered(reply, how) =>
      (match how
       case Replayed => row == Some(Row(q.hash, reply))
       case Lost => row == Some(Row(q.hash, reply))
       case Stored => row == Some(Row(q.hash, Kept(norm, reply))) && reply.status < 500
       case Reused => row.Some? && row.value.hash != q.hash && reply == KEY_REUSED
       case Unmatched => row.Some? && row.value.hash != q.hash
       case Failed => reply.status >= 500)
    case Storing(own) => own.status < 500
    case _ => true
  }

  predicate Won(q: Request) {
    q.phase.Answered? && q.phase.how == Stored
  }

  ghost predicate Inv(norm: Normaliser, s: State) {
    && (forall id | id in s.requests :: AnswerFits(norm, s.row, s.requests[id]))
    && s.writes == (if s.row.Some? then 1 else 0)
    && (s.row.None? ==> forall id | id in s.requests :: !Won(s.requests[id]))
    && (forall i, j | i in s.requests && j in s.requests && Won(s.requests[i]) && Won(s.requests[j]) :: i == j)
  }

  /** A step leaves the stepping request with a fitting answer, writes the row only
      when it was empty, and then as the winner. */
  lemma AdvanceFits(norm: Normaliser, row: Option<Row>, q: Request, handler: Reply)
    requires AnswerFits(norm, row, q) && (Won(q) ==> row.Some?)
    ensures var (row', phase) := Advance(norm, row, q.hash, q.phase, handler);
      && AnswerFits(norm, row', q.(phase := phase))
      && (row.Some? ==> row' == row)
      && (row' != row <==> !Won(q) && Won(q.(phase := phase)))
  {
  }

  lemma FitsStable(norm: Normaliser, row: Option<Row>, row': Option<Row>, q: Request)
    requires AnswerFits(norm, row, q) && (row.Some? ==> row' == row)
    ensures AnswerFits(norm, row', q)
  {
  }

  lemma NextKeepsInv(norm: Normaliser, s: State, a: Action)
    requires Inv(norm, s)
    ensures Inv(norm, Next(norm, s, a))
    ensures s.row.Some? ==> Next(norm, s, a).row == s.row
  {
    if a.Step? && a.id in s.requests {
      hide AnswerFits, Advance;
      var s' := Next(norm, s, a);
      AdvanceFits(norm, s.row, s.requests[a.id], a.handler);
      forall id | id in s'.requests ensures AnswerFits(norm, s'.row, s'.requests[id]) {
        if id != a.id { FitsStable(norm, s.row, s'.row, s.requests[id]); }
      }
    }
  }

  lemma {:induction false} RunInv(norm: Normaliser, actions: seq<Action>)
    ensures Inv(norm, Run(norm, actions))
  {
    if actions != [] {
      RunInv(norm, actions[..|actions| - 1]);
      NextKeepsInv(norm, Run(norm, actions[..|actions| - 1]), actions[|actions| - 1]);
    }
  }

  /** The row is written at most once, by at most one request, and never changes. */
  lemma {:induction false} RowWrittenOnce(norm: Normaliser, actions: seq<Action>, more: seq<Action>)
    ensures Run(norm, actions).writes <= 1
    ensures var s := Run(norm, actions);
      forall i, j | i in s.requests && j in s.requests && Won(s.requests[i]) && Won(s.requests[j]) :: i == j
    ensures Run(norm, actions).row.Some? ==> Run(norm, actions + more).row == Run(norm, actions).row
    decreases |more|
  {
    RunInv(norm, actions);
    if more == [] {
      assert actions + more == actions;
    } else {
      var n := |more| - 1;
      RowWrittenOnce(norm, actions, more[..n]);
      RunInv(norm, actions + more[..n]);
      var all := actions + more;
      assert all[..|all| - 1] == actions + more[..n];
      NextKeepsInv(norm, Run(norm, actions + more[..n]), more[n]);
    }
  }

  predicate AllHash(actions: seq<Action>, h: string) {
    forall i | 0 <= i < |actions| && actions[i].Arrive? :: actions[i].hash == h
  }

  lemma {:induction false} RequestsCarryHash(norm: Normaliser, actions: seq<Action>, h: string)
    requires AllHash(actions, h)
    ensures forall id | id in Run(norm, actions).requests :: Run(norm, actions).requests[id].hash == h
    ensures Run(norm, actions).row.Some? ==> Run(norm, actions).row.value.hash == h
  {
    if actions != [] {
      RequestsCarryHash(norm, actions[..|actions| - 1], h);
    }
  }

  /** Whatever the interleaving, every answer to one repeated request is the stored
      reply, except when the handler itself failed with 500 or above. A replayed answer is
      that reply verbatim; the one request that stored it answers with its own text, of
      which the column keeps the normal form. */
  lemma OneAnswerPerKey(norm: Normaliser, actions: seq<Action>, h: string, id: nat)
    requires AllHash(actions, h)
    requires id in Run(norm, actions).requests && Run(norm, actions).requests[id].phase.Answered?
    ensures var s := Run(norm, actions);
      var reply, how := s.requests[id].phase.reply, s.requests[id].phase.how;
      || (how == Failed && reply.status >= 500)
      || (how in {Replayed, Lost} && s.row == Some(Row(h, reply)))
      || (how == Stored && s.row == Some(Row(h, Kept(norm, reply))))
  {
    RunInv(norm, actions);
    RequestsCarryHash(norm, actions, h);
    var s := Run(norm, actions);
    assert AnswerFits(norm, s.row, s.requests[id]);
  }

  /** Any two answers below 500 to one repeated request therefore read the same once
      normalised, whichever requests won or lost. */
  lemma AnswersAgree(norm: Normaliser, actions: seq<Action>, h: string, i: nat, j: nat)
    requires IsNormaliser(norm) && AllHash(actions, h)
    requires i in Run(norm, actions).requests && Run(norm, actions).requests[i].phase.Answered?
    requires j in Run(norm, actions).requests && Run(norm, actions).requests[j].phase.Answered?
    requires Run(norm, actions).requests[i].phase.how != Failed
    requires Run(norm, actions).requests[j].phase.how != Failed
    ensures Kept(norm, Run(norm, actions).requests[i].phase.reply)
         == Kept(norm, Run(norm, actions).requests[j].phase.reply)
  {
    OneAnswerPerKey(norm, actions, h, i);
    OneAnswerPerKey(norm, actions, h, j);
    StoredIsNormal(norm, actions);
    RunInv(norm, actions);
  }

  lemma {:induction false} StoredIsNormal(norm: Normaliser, actions: seq<Action>)
    requires IsNormaliser(norm)
    ensures var s := Run(norm, actions); s.row.Some? ==> Kept(norm, s.row.value.reply) == s.row.value.reply
  {
    if actions != [] {
      StoredIsNormal(norm, actions[..|actions| - 1]);
    }
  }

  // ---- the text of the answers ----

  /** Every handler ends its body with the newline of the JSON encoder. */
  predicate AllEncoded(actions: seq<Action>) {
    forall i | 0 <= i < |actions| && actions[i].Step? :: EndsInNewline(actions[i].handler.body)
  }

  /** The handler's own text, where a request still holds it or has answered with it. */
  predicate OwnTextEncoded(phase: Phase) {
    match phase
    case Storing(own) => EndsInNewline(own.body)
    case Reloading(own) => EndsInNewline(own.body)
    case Answered(reply, how) => how == Stored ==> EndsInNewline(reply.body)
    case _ => true
  }

  lemma {:induction false} OwnTextsEncoded(norm: Normaliser, actions: seq<Action>)
    requires AllEncoded(actions)
    ensures forall id | id in Run(norm, actions).requests :: OwnTextEncoded(Run(norm, actions).requests[id].phase)
  {
    if actions != [] {
      OwnTextsEncoded(norm, actions[..|actions| - 1]);
    }
  }

  /** Two requests with one key never get literally the same answer below 500 when one of
      them is the request that stored it, and always do otherwise: the column drops the
      newline that every handler ends its body with. */
  lemma SameTextIffBothReplayed(norm: Normaliser, actions: seq<Action>, h: string, i: nat, j: nat)
    requires IsNormaliser(norm) && AllHash(actions, h) && AllEncoded(actions) && i != j
    requires i in Run(norm, actions).requests && Run(norm, actions).requests[i].phase.Answered?
    requires j in Run(norm, actions).requests && Run(norm, actions).requests[j].phase.Answered?
    requires Run(norm, actions).requests[i].phase.how != Failed
    requires Run(norm, actions).requests[j].phase.how != Failed
    ensures var s := Run(norm, actions);
      s.requests[i].phase.reply == s.requests[j].phase.reply
      <==> s.requests[i].phase.how != Stored && s.requests[j].phase.how != Stored
  {
    OneAnswerPerKey(norm, actions, h, i);
    OneAnswerPerKey(norm, actions, h, j);
    RowWrittenOnce(norm, actions, []);
    OwnTextsEncoded(norm, actions);
    var s := Run(norm, actions);
    assert OwnTextEncoded(s.requests[i].phase) && OwnTextEncoded(s.requests[j].phase);
    assert !(Won(s.requests[i]) && Won(s.requests[j]));
  }

  /** A booking and its repetition are the witness: the first answer ends in a newline, the
      replay does not. */
  lemma ReplayDropsNewline(norm: Normaliser, json: string)
    requires IsNormaliser(norm) && !IsBlank(json)
    ensures var own := Reply(201, json + "\n");
      var s := Run(norm, [Arrive(0, "h"), Step(0, own), Step(0, own), Step(0, own), Arrive(1, "h"), Step(1, own)]);
      && 0 in s.requests && s.requests[0].phase == Answered(own, Stored)
      && 1 in s.requests && s.requests[1].phase == Answered(Reply(201, norm(own.body)), Replayed)
      && norm(own.body) != own.body
  {
    var own := Reply(201, json + "\n");
    var a := [Arrive(0, "h"), Step(0, own), Step(0, own), Step(0, own), Arrive(1, "h"), Step(1, own)];
    assert !IsBlank(own.body) by {
      var n :| 0 <= n < |json| && json[n] !in {' ', '\t', '\n', '\r'};
      assert own.body[n] == json[n];
    }
    hide IsBlank;
    var s1 := State(None, map[0 := Request("h", Loading)], 0);
    var s2 := State(None, map[0 := Request("h", Running)], 0);
    var s3 := State(None, map[0 := Request("h", Storing(own))], 0);
    var s4 := State(Some(Row("h", Kept(norm, own))), map[0 := Request("h", Answered(own, Stored))], 1);
    var s5 := s4.(requests := s4.requests[1 := Request("h", Loading)]);
    assert Next(norm, EMPTY, a[0]) == s1 && Next(norm, s1, a[1]) == s2 && Next(norm, s2, a[2]) == s3;
    assert Next(norm, s3, a[3]) == s4 && Next(norm, s4, a[4]) == s5;
    hide Next;
    assert a[..5][..4] == a[..4] && a[..4][..3] == a[..3] && a[..3][..2] == a[..2] && a[..2][..1] == a[..1] && a[..1][..0] == [];
    assert Run(norm, a[..1]) == s1;
    assert Run(norm, a[..2]) == s2;
    assert Run(norm, a[..3]) == s3;
    assert Run(norm, a[..4]) == s4;
    assert Run(norm, a[..5]) == s5;
    assert Run(norm, a) == Next(norm, s5, a[5]);
    ReplayStep(norm, s5, own);
  }

  lemma ReplayStep(norm: Normaliser, s: State, own: Reply)
    requires 1 in s.requests && s.requests[1] == Request("h", Loading)
    requires s.row.Some? && s.row.value.hash == "h"
    ensures var s' := Next(norm, s, Step(1, own));
      s'.requests == s.requests[1 := Request("h", Answered(s.row.value.reply, Replayed))]
  {
  }

}
