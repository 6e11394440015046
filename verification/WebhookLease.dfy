/** Registration of gateway webhooks: a lease on each event row, fenced by a processing token that
    every claim renews.

    A delivery is not atomic: its INSERT and, when that hits a unique index, its takeover
    transaction are two steps between which other deliveries and completions may run. The rows of the
    table are told apart by their arrival; how many rows an event can have depends on the index. */
module WebhookLease {

  import opened Basics

  type EventKey = (string, string)  // (gateway, event id)
  type Token = nat                  // uuid drawn once per delivery

  datatype Status = Received | Processing | Processed | Failed | Skipped

  datatype RowKey = RowKey(event: EventKey, arrival: int)

  datatype Row = Row(hash: string, state: Status, token: Token, startedAt: int, retries: nat)

  type Rows = map<RowKey, Row>

  /** `PerEvent` is the index the service relies on, one row per gateway and event id. `PerArrival` is
      the pair of indexes the migration creates, which also contain the arrival: no two rows of a
      gateway share arrival and event id, or arrival and hash. */
  datatype Index = PerEvent | PerArrival

  /** What the takeover transaction answers: a claim, the duplicate result, or HTTP 409 or 503. */
  datatype Outcome = Claimed | Duplicate | IdentityConflict | InProgress

  const LEASE_SECONDS := 600

  // ----- the three statements, as functions of the table -----

  predicate Clashes(index: Index, k: RowKey, row: Row, event: EventKey, hash: string, now: int) {
    match index
    case PerEvent => k.event == event
    case PerArrival => k.arrival == now && k.event.0 == event.0 && (k.event == event || row.hash == hash)
  }

  /** The INSERT hits a unique index. */
  predicate Refuses(index: Index, rows: Rows, event: EventKey, hash: string, now: int) {
    exists k :: k in rows && Clashes(index, k, rows[k], event, hash, now)
  }

  function InsertRow(index: Index, rows: Rows, event: EventKey, hash: string, token: Token, now: int): Rows {
    if Refuses(index, rows, event, hash, now) then rows
    else rows[RowKey(event, now) := Row(hash, Received, token, now, 0)]
  }

  predicate HasRow(rows: Rows, event: EventKey) { exists k :: k in rows && k.event == event }

  /** What the takeover's SELECT may return: any one row of the event, or nothing if there is none. */
  predicate Fetches(rows: Rows, event: EventKey, pick: Option<RowKey>) {
    if pick.None? then !HasRow(rows, event) else pick.value in rows && pick.value.event == event
  }

  function TakeoverOutcome(rows: Rows, pick: Option<RowKey>, hash: string, now: int): Outcome {
    if pick.None? || pick.value !in rows || rows[pick.value].hash != hash then IdentityConflict
    else
      var row := rows[pick.value];
      if row.state == Processed then Duplicate
      else if row.state != Failed && !(row.startedAt < now - LEASE_SECONDS) then InProgress
      else Claimed
  }

  function TakeoverRow(rows: Rows, pick: Option<RowKey>, hash: string, token: Token, now: int): Rows {
    if TakeoverOutcome(rows, pick, hash, now) != Claimed then rows
    else rows[pick.value := rows[pick.value].(state := Received, token := token, startedAt := now)]
  }

  function MarkRow(rows: Rows, k: RowKey, token: Token, status: Status): Rows {
    if k !in rows || rows[k].token != token then rows
    else
      var row := rows[k];
      rows[k := row.(state := status, retries := row.retries + (if status == Failed then 1 else 0))]
  }

  /** The `payment_webhook_events` table, updated in place. */
  class EventTable {
    const index: Index
    var rows: Rows

    constructor (index: Index)
      ensures rows == map[] && this.index == index
    {
      this.index := index;
      rows := map[];
    }

    /** The INSERT; `ok` is false on the unique violation. */
    method Insert(event: EventKey, hash: string, token: Token, now: int) returns (ok: bool)
      modifies this
      ensures ok <==> !Refuses(index, old(rows), event, hash, now)
      ensures rows == InsertRow(index, old(rows), event, hash, token, now)
    {
      ok := !Refuses(index, rows, event, hash, now);
      if ok {
        rows := rows[RowKey(event, now) := Row(hash, Received, token, now, 0)];
      }
    }

    /** The takeover transaction that runs after the unique violation. */
    method TakeOver(event: EventKey, hash: string, token: Token, now: int)
        returns (outcome: Outcome, pick: Option<RowKey>)
      modifies this
      ensures Fetches(old(rows), event, pick)
      ensures outcome == TakeoverOutcome(old(rows), pick, hash, now)
      ensures rows == TakeoverRow(old(rows), pick, hash, token, now)
    {
      if !HasRow(rows, event) {
        return IdentityConflict, None;
      }
      var k :| k in rows && k.event == event;
      pick := Some(k);
      var existing := rows[k];
      if existing.hash != hash {
        return IdentityConflict, pick;
      }
      if existing.state == Processed {
        return Duplicate, pick;
      }
      if existing.state != Failed && !(existing.startedAt < now - LEASE_SECONDS) {
        return InProgress, pick;
      }
      rows := rows[k := existing.(state := Received, token := token, startedAt := now)];
      outcome := Claimed;
    }

    method MarkProcessed(k: RowKey, token: Token, duplicate: bool, status: Status)
      modifies this
      ensures rows == if duplicate then old(rows) else MarkRow(old(rows), k, token, status)
    {
      if duplicate {
        return;
      }
      if k in rows && rows[k].token == token {
        var row := rows[k];
        rows := rows[k := row.(state := status, retries := row.retries + if status == Failed then 1 else 0)];
      }
    }

    /** A whole delivery with nothing in between. Only a claim touches the table, and it installs the
        delivery's token on a row of the event: a new one unless the INSERT is refused. With one row per
        event a duplicate is answered exactly for a processed event. */
    method Register(event: EventKey, hash: string, token: Token, now: int) returns (outcome: Outcome, claimed: RowKey)
      modifies this
      ensures !Refuses(index, old(rows), event, hash, now) ==>
          outcome == Claimed && claimed == RowKey(event, now) && claimed !in old(rows)
      ensures outcome == Claimed ==> claimed in rows && claimed.event == event
      ensures outcome == Claimed ==> rows[claimed].token == token && rows[claimed].state == Received
      ensures outcome == Claimed ==> forall k :: k in old(rows) && k != claimed ==> k in rows && rows[k] == old(rows)[k]
      ensures outcome != Claimed ==> rows == old(rows)
      ensures outcome == Duplicate ==> exists k :: k in rows && IsProcessed(rows, k, event, hash)
      ensures index == PerEvent && OneRowEach(old(rows)) ==>
                (outcome == Duplicate <==> exists k :: k in old(rows) && IsProcessed(old(rows), k, event, hash))
    {
      var ok := Insert(event, hash, token, now);
      claimed := RowKey(event, now);
      if ok {
        outcome := Claimed;
      } else {
        var pick;
        outcome, pick := TakeOver(event, hash, token, now);
        if pick.Some? {
          claimed := pick.value;
        }
        assert outcome == Duplicate ==> IsProcessed(rows, claimed, event, hash);
      }
    }
  }

  predicate IsProcessed(rows: Rows, k: RowKey, event: EventKey, hash: string) {
    k in rows && k.event == event && rows[k].hash == hash && rows[k].state == Processed
  }

  ghost predicate OneRowEach(rows: Rows) {
    forall a, b :: a in rows && b in rows && a.event == b.event ==> a == b
  }

  // ----- interleavings -----

  /** Where one delivery stands: refused by the index, holding a claim on a row, or answered. */
  datatype Phase = Refused | Owner(row: RowKey) | Answered(outcome: Outcome)

  datatype Worker = Worker(event: EventKey, hash: string, phase: Phase)

  /** One claim on a row, with the marks of that claimant that took effect. */
  datatype Claim = Claim(token: Token, at: int, marks: seq<Status>)

  datatype World = World(rows: Rows, workers: map<Token, Worker>, history: map<RowKey, seq<Claim>>)

  /** `pick` is the row the takeover's SELECT returned. */
  datatype Op =
    | Insert(token: Token, event: EventKey, hash: string, now: int)
    | TakeOver(token: Token, pick: Option<RowKey>, now: int)
    | Mark(token: Token, status: Status)

  const START := World(map[], map[], map[])

  /** The INSERT of a new delivery goes through. */
  predicate Admits(index: Index, w: World, op: Op) {
    op.Insert? && op.token !in w.workers && !Refuses(index, w.rows, op.event, op.hash, op.now)
  }

  function Step(index: Index, w: World, op: Op): World {
    match op
    case Insert(token, event, hash, now) =>
      if token in w.workers then w
      else if Refuses(index, w.rows, event, hash, now)
      then w.(workers := w.workers[token := Worker(event, hash, Refused)])
      else
        var k := RowKey(event, now);
        World(InsertRow(index, w.rows, event, hash, token, now),
              w.workers[token := Worker(event, hash, Owner(k))],
              w.history[k := [Claim(token, now, [])]])
    case TakeOver(token, pick, now) =>
      if token !in w.workers || w.workers[token].phase != Refused || !Fetches(w.rows, w.workers[token].event, pick) then w
      else
        var event, hash := w.workers[token].event, w.workers[token].hash;
        var outcome := TakeoverOutcome(w.rows, pick, hash, now);
        if outcome != Claimed then w.(workers := w.workers[token := Worker(event, hash, Answered(outcome))])
        else World(TakeoverRow(w.rows, pick, hash, token, now),
                   w.workers[token := Worker(event, hash, Owner(pick.value))],
                   w.history[pick.value := Claims(w, pick.value) + [Claim(token, now, [])]])
    case Mark(token, status) =>
      if token !in w.workers || !w.workers[token].phase.Owner? then w
      else
        var k := w.workers[token].phase.row;
        World(MarkRow(w.rows, k, token, status), w.workers,
              if k in w.rows && w.rows[k].token == token
              then w.history[k := WithMark(Claims(w, k), status)] else w.history)
  }

  function Run(index: Index, w: World, ops: seq<Op>): World {
    if ops == [] then w else Step(index, Run(index, w, ops[..|ops| - 1]), ops[|ops| - 1])
  }

  function Claims(w: World, k: RowKey): seq<Claim> {
    if k in w.history then w.history[k] else []
  }

  function WithMark(claims: seq<Claim>, status: Status): seq<Claim> {
    if claims == [] then []
    else
      var newest := claims[|claims| - 1];
      claims[|claims| - 1 := newest.(marks := newest.marks + [status])]
  }

  /** The state a claim leaves its row in: its last effective mark. */
  function Latest(c: Claim): Status {
    if c.marks == [] then Received else c.marks[|c.marks| - 1]
  }

  function FailedMarks(marks: seq<Status>): nat {
    if marks == [] then 0
    else FailedMarks(marks[..|marks| - 1]) + if marks[|marks| - 1] == Failed then 1 else 0
  }

  function TotalFailed(claims: seq<Claim>): nat {
    if claims == [] then 0
    else TotalFailed(claims[..|claims| - 1]) + FailedMarks(claims[|claims| - 1].marks)
  }

  /** A later claim is justified by the earlier one's failed mark or by its lapsed lease,
      and never follows a processed mark. */
  predicate Justified(earlier: Claim, later: Claim) {
    && Latest(earlier) != Processed
    && (Latest(earlier) == Failed || earlier.at + LEASE_SECONDS < later.at)
  }

  /** What a row and its list of claims have to do with each other. */
  ghost predicate Tracks(row: Row, h: seq<Claim>) {
    && |h| > 0
    && row.token == h[|h| - 1].token
    && row.startedAt == h[|h| - 1].at
    && row.state == Latest(h[|h| - 1])
    && row.retries == TotalFailed(h)
    && (forall i, j :: 0 <= i < j < |h| ==> h[i].token != h[j].token)
    && (forall i :: 0 < i < |h| ==> Justified(h[i - 1], h[i]))
  }

  predicate Owns(w: World, t: Token, k: RowKey) {
    t in w.workers && w.workers[t].phase == Owner(k)
  }

  predicate InHistory(h: seq<Claim>, t: Token) {
    exists i :: 0 <= i < |h| && h[i].token == t
  }

  ghost predicate KeyInv(w: World, k: RowKey) {
    && (k in w.rows <==> k in w.history)
    && (k in w.history ==> Tracks(w.rows[k], w.history[k]))
    && (forall t :: Owns(w, t, k) <==> InHistory(Claims(w, k), t))
  }

  ghost predicate Inv(w: World) {
    forall k :: KeyInv(w, k)
  }

  lemma ClaimTracks(row: Row, h: seq<Claim>, token: Token, now: int)
    requires Tracks(row, h) && !InHistory(h, token)
    requires row.state != Processed && (row.state == Failed || row.startedAt < now - LEASE_SECONDS)
    ensures Tracks(row.(state := Received, token := token, startedAt := now), h + [Claim(token, now, [])])
  {
    var h' := h + [Claim(token, now, [])];
    assert h'[..|h'| - 1] == h;
  }

  lemma MarkTracks(row: Row, h: seq<Claim>, status: Status)
    requires Tracks(row, h)
    ensures Tracks(row.(state := status, retries := row.retries + if status == Failed then 1 else 0), WithMark(h, status))
    ensures forall t :: InHistory(WithMark(h, status), t) <==> InHistory(h, t)
  {
    var h', n := WithMark(h, status), |h| - 1;
    assert h'[..n] == h[..n];
    assert h'[n].marks[..|h'[n].marks| - 1] == h[n].marks;
    assert forall i :: 0 <= i < |h| ==> h'[i].token == h[i].token;
  }

  lemma InsertKeeps(index: Index, w: World, op: Op, k: RowKey)
    requires Inv(w) && op.Insert?
    ensures KeyInv(Step(index, w, op), k)
  {
    assert KeyInv(w, k);
    var w' := Step(index, w, op);
    if Admits(index, w, op) && k == RowKey(op.event, op.now) {
      assert k !in w.rows by {
        assert k in w.rows ==> Clashes(index, k, w.rows[k], op.event, op.hash, op.now);
      }
      assert w'.history[k][..0] == [];
      assert w'.history[k][0].token == op.token;
      assert Claims(w', k) == [Claim(op.token, op.now, [])];
      forall t ensures Owns(w', t, k) <==> InHistory(Claims(w', k), t) {
        assert !InHistory(Claims(w, k), t) && !Owns(w, t, k);
      }
    } else {
      assert Claims(w', k) == Claims(w, k);
      assert forall t :: Owns(w', t, k) <==> Owns(w, t, k);
    }
  }

  lemma TakeOverKeeps(index: Index, w: World, op: Op, k: RowKey)
    requires Inv(w) && op.TakeOver?
    ensures KeyInv(Step(index, w, op), k)
  {
    assert KeyInv(w, k);
    var w', t0 := Step(index, w, op), op.token;
    if t0 in w.workers && w.workers[t0].phase == Refused && Fetches(w.rows, w.workers[t0].event, op.pick)
       && op.pick == Some(k) && TakeoverOutcome(w.rows, op.pick, w.workers[t0].hash, op.now) == Claimed {
      var h, h' := w.history[k], w'.history[k];
      assert !Owns(w, t0, k);
      ClaimTracks(w.rows[k], h, t0, op.now);
      assert h'[|h|].token == t0;
      assert forall i :: 0 <= i < |h| ==> h'[i] == h[i];
      assert forall t :: InHistory(h', t) <==> InHistory(h, t) || t == t0;
    } else {
      assert Claims(w', k) == Claims(w, k);
      assert forall t :: Owns(w', t, k) <==> Owns(w, t, k);
    }
  }

  lemma MarkKeeps(index: Index, w: World, op: Op, k: RowKey)
    requires Inv(w) && op.Mark?
    ensures KeyInv(Step(index, w, op), k)
  {
    assert KeyInv(w, k);
    var w' := Step(index, w, op);
    assert forall t :: Owns(w', t, k) <==> Owns(w, t, k);
    if Owns(w, op.token, k) && k in w.rows && w.rows[k].token == op.token {
      MarkTracks(w.rows[k], w.history[k], op.status);
    } else {
      assert Claims(w', k) == Claims(w, k);
    }
  }

  lemma StepKeepsInv(index: Index, w: World, op: Op)
    requires Inv(w)
    ensures Inv(Step(index, w, op))
  {
    forall k ensures KeyInv(Step(index, w, op), k) {
      match op
      case Insert(_, _, _, _) => InsertKeeps(index, w, op, k);
      case TakeOver(_, _, _) => TakeOverKeeps(index, w, op, k);
      case Mark(_, _) => MarkKeeps(index, w, op, k);
    }
  }

  lemma {:induction false} RunKeepsInv(index: Index, w: World, ops: seq<Op>)
    requires Inv(w)
    ensures Inv(Run(index, w, ops))
  {
    if ops != [] {
      RunKeepsInv(index, w, ops[..|ops| - 1]);
      StepKeepsInv(index, Run(index, w, ops[..|ops| - 1]), ops[|ops| - 1]);
    }
  }

  function RowAt(w: World, k: RowKey): Option<Row> { if k in w.rows then Some(w.rows[k]) else None }

  /** The token of the newest claim on a row. */
  ghost predicate IsNewest(w: World, k: RowKey, t: Token) {
    Claims(w, k) != [] && Claims(w, k)[|Claims(w, k)| - 1].token == t
  }

  /** Fencing, under either index: after any interleaving, a step that changes row `k` is the mark of
      its newest claimant or a new claim, whose token then is the newest. An older claimant's
      completion changes nothing. */
  lemma {:induction false} OnlyTheNewestTokenWrites(index: Index, ops: seq<Op>, op: Op, k: RowKey)
    ensures var w := Run(index, START, ops);
            var w' := Step(index, w, op);
            RowAt(w, k) != RowAt(w', k) ==> IsNewest(w', k, op.token) && (op.Mark? ==> IsNewest(w, k, op.token))
  {
    RunKeepsInv(index, START, ops);
    var w := Run(index, START, ops);
    StepKeepsInv(index, w, op);
    assert KeyInv(w, k) && KeyInv(Step(index, w, op), k);
  }

  /** Successive claims of one row, under either index: distinct tokens, never after a processed mark,
      and each separated from the one before by a failed mark or by more than ten minutes. The row's
      retry counter is the number of failed marks ever accepted for it. */
  lemma {:induction false} ClaimsAreSeparated(index: Index, ops: seq<Op>, k: RowKey)
    requires k in Run(index, START, ops).rows
    ensures var w := Run(index, START, ops);
            var h := Claims(w, k);
            && (forall i, j :: 0 <= i < j < |h| ==> h[i].token != h[j].token)
            && (forall i :: 0 < i < |h| ==> Justified(h[i - 1], h[i]))
            && w.rows[k].retries == TotalFailed(h)
  {
    RunKeepsInv(index, START, ops);
    assert KeyInv(Run(index, START, ops), k);
  }

  // ----- completion -----

  predicate MarkedBy(ops: seq<Op>, t: Token) {
    exists i :: 0 <= i < |ops| && ops[i].Mark? && ops[i].token == t
  }

  ghost predicate MarksAtMostOnce(ops: seq<Op>) {
    forall i, j :: 0 <= i < j < |ops| && ops[i].Mark? && ops[j].Mark? ==> ops[i].token != ops[j].token
  }

  /** A processed row, with its claims, is frozen against every continuation in which its own claimant
      stays silent: no delivery, takeover or foreign completion can touch it. */
  lemma {:induction false} ProcessedIsPermanent(index: Index, w: World, ops: seq<Op>, k: RowKey)
    requires Inv(w) && k in w.rows && w.rows[k].state == Processed
    requires !MarkedBy(ops, w.rows[k].token)
    ensures k in Run(index, w, ops).rows && Run(index, w, ops).rows[k] == w.rows[k]
    ensures Claims(Run(index, w, ops), k) == Claims(w, k)
  {
    if ops != [] {
      var front, op := ops[..|ops| - 1], ops[|ops| - 1];
      assert forall i :: 0 <= i < |front| ==> ops[i] == front[i];
      ProcessedIsPermanent(index, w, front, k);
      assert op.Mark? ==> op.token != w.rows[k].token;
      var w1 := Run(index, w, front);
      assert op.Insert? && op.now == k.arrival && op.event == k.event ==>
        Clashes(index, k, w1.rows[k], op.event, op.hash, op.now);
    }
  }

  /** The condition above is exact: the silent claimant is what it takes, because one more mark
      from the claimant of the row rewrites its state. */
  lemma OwnClaimantCanStillRewrite(index: Index, w: World, k: RowKey, status: Status)
    requires Inv(w) && k in w.rows
    ensures var w' := Step(index, w, Mark(w.rows[k].token, status));
            k in w'.rows && w'.rows[k].state == status
  {
    assert KeyInv(w, k);
    var h := Claims(w, k);
    assert h[|h| - 1].token == w.rows[k].token;
    assert InHistory(h, w.rows[k].token);
    assert Owns(w, w.rows[k].token, k);
  }

  /** Every effective mark of a claim was issued by its claimant in the run. */
  lemma {:induction false} MarksComeFromTheRun(index: Index, ops: seq<Op>, k: RowKey, i: nat)
    requires i < |Claims(Run(index, START, ops), k)| && Claims(Run(index, START, ops), k)[i].marks != []
    ensures MarkedBy(ops, Claims(Run(index, START, ops), k)[i].token)
  {
    if ops != [] {
      var front, op := ops[..|ops| - 1], ops[|ops| - 1];
      var w := Run(index, START, front);
      RunKeepsInv(index, START, front);
      assert KeyInv(w, k);
      var c := Claims(Step(index, w, op), k)[i];
      if i < |Claims(w, k)| && Claims(w, k)[i].marks != [] {
        ClaimStays(index, w, op, k, i);
        MarksComeFromTheRun(index, front, k, i);
        var j :| 0 <= j < |front| && front[j].Mark? && front[j].token == c.token;
        assert ops[j] == front[j];
      } else {
        assert op.Mark? && op.token == c.token;
        assert ops[|ops| - 1] == op;
      }
    }
  }

  lemma ClaimStays(index: Index, w: World, op: Op, k: RowKey, i: nat)
    requires KeyInv(w, k) && i < |Claims(w, k)|
    ensures i < |Claims(Step(index, w, op), k)| && Claims(Step(index, w, op), k)[i].token == Claims(w, k)[i].token
  {
    assert op.Insert? && k == RowKey(op.event, op.now) ==> Clashes(index, k, w.rows[k], op.event, op.hash, op.now);
  }

  /** If no claimant marks twice, a row once processed stays as it is, whatever is delivered
      afterwards, and no second claim is ever granted for it. */
  lemma {:induction false} ProcessedOnceAndForAll(index: Index, before: seq<Op>, after: seq<Op>, k: RowKey)
    requires MarksAtMostOnce(before + after)
    requires k in Run(index, START, before).rows && Run(index, START, before).rows[k].state == Processed
    ensures var w := Run(index, START, before);
            var w' := Run(index, w, after);
            k in w'.rows && w'.rows[k] == w.rows[k] && Claims(w', k) == Claims(w, k)
  {
    RunKeepsInv(index, START, before);
    ProcessedClaimantIsSilent(index, before, after, k);
    ProcessedIsPermanent(index, Run(index, START, before), after, k);
  }

  lemma {:induction false} ProcessedClaimantIsSilent(index: Index, before: seq<Op>, after: seq<Op>, k: RowKey)
    requires MarksAtMostOnce(before + after)
    requires k in Run(index, START, before).rows && Run(index, START, before).rows[k].state == Processed
    ensures !MarkedBy(after, Run(index, START, before).rows[k].token)
  {
    var w := Run(index, START, before);
    RunKeepsInv(index, START, before);
    assert KeyInv(w, k);
    MarksComeFromTheRun(index, before, k, |Claims(w, k)| - 1);
    var i :| 0 <= i < |before| && before[i].Mark? && before[i].token == w.rows[k].token;
    assert (before + after)[i] == before[i];
    assert forall j :: 0 <= j < |after| ==> (before + after)[|before| + j] == after[j];
  }

  /** With two marks allowed the promise fails under either index, from every world with a processed
      row: its claimant marks once more, as failed, and a delivery that the index refuses takes it over. */
  lemma {:induction false} DoubleMarkReopensAProcessedEvent(index: Index, w: World, k: RowKey, t: Token, now: int)
    requires Inv(w) && k in w.rows && w.rows[k].state == Processed && t !in w.workers
    requires index == PerArrival ==> now == k.arrival
    ensures var row := w.rows[k];
            var w1 := Step(index, w, Mark(row.token, Failed));
            var w2 := Step(index, w1, Insert(t, k.event, row.hash, now));
            var w3 := Step(index, w2, TakeOver(t, Some(k), now));
            k in w3.rows && w3.rows[k] == Row(row.hash, Received, t, now, row.retries + 1)
  {
    OwnClaimantCanStillRewrite(index, w, k, Failed);
    var w1 := Step(index, w, Mark(w.rows[k].token, Failed));
    assert t !in w1.workers && w1.rows[k] == w.rows[k].(state := Failed, retries := w.rows[k].retries + 1);
    assert Clashes(index, k, w1.rows[k], k.event, w.rows[k].hash, now);
    var w2 := Step(index, w1, Insert(t, k.event, w.rows[k].hash, now));
    assert w2 == w1.(workers := w1.workers[t := Worker(k.event, w.rows[k].hash, Refused)]);
  }

  lemma {:induction false} RunTo(index: Index, ops: seq<Op>, i: nat)
    requires i < |ops|
    ensures Run(index, START, ops[..i + 1]) == Step(index, Run(index, START, ops[..i]), ops[i])
  {
    assert ops[..i + 1][..i] == ops[..i];
  }

  // ----- rows of one event -----

  /** When the INSERT of a further delivery is refused, for every table in which the hash tells the
      event. Under the service's index: whenever the event is known. Under the migrated ones: exactly
      when a row of the event arrived at the same instant. */
  lemma InsertRefusedIff(rows: Rows, event: EventKey, hash: string, now: int)
    requires forall k :: k in rows && k.event.0 == event.0 && rows[k].hash == hash ==> k.event == event
    ensures Refuses(PerEvent, rows, event, hash, now) <==> HasRow(rows, event)
    ensures Refuses(PerArrival, rows, event, hash, now) <==> RowKey(event, now) in rows
  {
    if HasRow(rows, event) {
      var k :| k in rows && k.event == event;
      assert Clashes(PerEvent, k, rows[k], event, hash, now);
    }
    if RowKey(event, now) in rows {
      assert Clashes(PerArrival, RowKey(event, now), rows[RowKey(event, now)], event, hash, now);
    }
  }

  lemma StepAddsRows(index: Index, w: World, op: Op)
    ensures forall k :: k in Step(index, w, op).rows <==>
        k in w.rows || (Admits(index, w, op) && k == RowKey(op.event, op.now))
  {
  }

  /** Some delivery of the event is admitted in the run. */
  predicate AdmitsEvent(index: Index, w: World, ops: seq<Op>, event: EventKey) {
    ops != []
    && var n := |ops| - 1;
       AdmitsEvent(index, w, ops[..n], event) || (Admits(index, Run(index, w, ops[..n]), ops[n]) && ops[n].event == event)
  }

  /** An event gets a new row in a run exactly when one of its deliveries is admitted. */
  lemma {:induction false} NewRowsAreAdmitted(index: Index, w: World, ops: seq<Op>, event: EventKey)
    ensures forall k :: k in w.rows ==> k in Run(index, w, ops).rows
    ensures AdmitsEvent(index, w, ops, event) <==>
        exists k :: k in Run(index, w, ops).rows && k !in w.rows && k.event == event
  {
    if ops != [] {
      var n := |ops| - 1;
      var w1, op := Run(index, w, ops[..n]), ops[n];
      NewRowsAreAdmitted(index, w, ops[..n], event);
      StepAddsRows(index, w1, op);
      if Admits(index, w1, op) && op.event == event {
        var k := RowKey(event, op.now);
        assert k in w1.rows ==> Clashes(index, k, w1.rows[k], op.event, op.hash, op.now);
        assert k in Run(index, w, ops).rows && k !in w.rows;
      }
      if AdmitsEvent(index, w, ops[..n], event) {
        var k :| k in w1.rows && k !in w.rows && k.event == event;
        assert k in Run(index, w, ops).rows;
      }
    }
  }

  /** No claim on any row of the event was added. */
  ghost predicate SameClaims(w: World, w': World, event: EventKey) {
    forall k: RowKey :: k.event == event ==> Claims(w', k) == Claims(w, k)
  }

  /** Exactly when an event, all of whose rows are processed and whose claimants stay silent, is claimed
      again: when the index lets the INSERT of one of its deliveries through. */
  lemma {:induction false} ClaimedAgainIff(index: Index, w: World, ops: seq<Op>, event: EventKey)
    requires Inv(w)
    requires forall k :: k in w.rows && k.event == event ==> w.rows[k].state == Processed && !MarkedBy(ops, w.rows[k].token)
    ensures SameClaims(w, Run(index, w, ops), event) <==> !AdmitsEvent(index, w, ops, event)
  {
    var w' := Run(index, w, ops);
    RunKeepsInv(index, w, ops);
    NewRowsAreAdmitted(index, w, ops, event);
    forall k: RowKey | k.event == event && k in w.rows ensures Claims(w', k) == Claims(w, k) {
      ProcessedIsPermanent(index, w, ops, k);
    }
    forall k: RowKey | k.event == event && k !in w.rows ensures Claims(w', k) == Claims(w, k) <==> k !in w'.rows {
      assert KeyInv(w, k) && KeyInv(w', k);
    }
  }

  lemma {:induction false} OneRowStep(w: World, op: Op)
    requires OneRowEach(w.rows)
    ensures OneRowEach(Step(PerEvent, w, op).rows)
  {
    StepAddsRows(PerEvent, w, op);
    if Admits(PerEvent, w, op) {
      forall k | k in w.rows ensures k.event != op.event {
        assert !Clashes(PerEvent, k, w.rows[k], op.event, op.hash, op.now);
      }
    }
  }

  /** The index the service relies on gives every event one row in every run, so that what holds of rows
      holds of events. */
  lemma {:induction false} OneRowPerEvent(ops: seq<Op>)
    ensures OneRowEach(Run(PerEvent, START, ops).rows)
  {
    if ops != [] {
      OneRowPerEvent(ops[..|ops| - 1]);
      OneRowStep(Run(PerEvent, START, ops[..|ops| - 1]), ops[|ops| - 1]);
    }
  }

  /** An event with one row, under either index: all its claims are in that row's list, so they are
      separated from each other by failed marks or lapsed leases. */
  lemma {:induction false} EventClaimsAreSeparated(index: Index, ops: seq<Op>, k: RowKey)
    requires k in Run(index, START, ops).rows
    requires forall k' :: k' in Run(index, START, ops).rows && k'.event == k.event ==> k' == k
    ensures var w := Run(index, START, ops);
            var h := Claims(w, k);
            && (forall k': RowKey :: k'.event == k.event && k' != k ==> Claims(w, k') == [])
            && (forall i :: 0 < i < |h| ==> Justified(h[i - 1], h[i]))
  {
    var w := Run(index, START, ops);
    RunKeepsInv(index, START, ops);
    ClaimsAreSeparated(index, ops, k);
    forall k': RowKey | k'.event == k.event && k' != k ensures Claims(w, k') == [] {
      assert KeyInv(w, k');
    }
  }

  /** Under the index the service relies on, and if no claimant marks twice, a processed event is never
      claimed again. */
  lemma {:induction false} ProcessedEventIsNeverClaimedAgain(before: seq<Op>, after: seq<Op>, k: RowKey)
    requires MarksAtMostOnce(before + after)
    requires k in Run(PerEvent, START, before).rows && Run(PerEvent, START, before).rows[k].state == Processed
    ensures SameClaims(Run(PerEvent, START, before), Run(PerEvent, Run(PerEvent, START, before), after), k.event)
  {
    var w := Run(PerEvent, START, before);
    RunKeepsInv(PerEvent, START, before);
    OneRowPerEvent(before);
    ProcessedClaimantIsSilent(PerEvent, before, after, k);
    KnownIsNotAdmitted(w, after, k);
    ClaimedAgainIff(PerEvent, w, after, k.event);
  }

  lemma {:induction false} KnownIsNotAdmitted(w: World, ops: seq<Op>, k: RowKey)
    requires k in w.rows
    ensures !AdmitsEvent(PerEvent, w, ops, k.event)
  {
    if ops != [] {
      var n := |ops| - 1;
      KnownIsNotAdmitted(w, ops[..n], k);
      NewRowsAreAdmitted(PerEvent, w, ops[..n], k.event);
      var w1, op := Run(PerEvent, w, ops[..n]), ops[n];
      assert op.Insert? && op.event == k.event ==> Clashes(PerEvent, k, w1.rows[k], op.event, op.hash, op.now);
    }
  }

  /** No two deliveries of the run arrive at the same instant. */
  ghost predicate ArrivalsDiffer(ops: seq<Op>) {
    forall i, j :: 0 <= i < j < |ops| && ops[i].Insert? && ops[j].Insert? ==> ops[i].now != ops[j].now
  }

  lemma {:induction false} ArrivalsComeFromTheRun(index: Index, ops: seq<Op>, k: RowKey)
    requires k in Run(index, START, ops).rows
    ensures exists i :: 0 <= i < |ops| && ops[i].Insert? && ops[i].now == k.arrival
  {
    if ops != [] {
      var n := |ops| - 1;
      var w := Run(index, START, ops[..n]);
      StepAddsRows(index, w, ops[n]);
      if k in w.rows {
        ArrivalsComeFromTheRun(index, ops[..n], k);
        var i :| 0 <= i < n && ops[..n][i].Insert? && ops[..n][i].now == k.arrival;
        assert ops[i] == ops[..n][i];
      } else {
        assert ops[n].Insert? && ops[n].now == k.arrival;
      }
    }
  }

  /** Under the migrated indexes no delivery that arrives at an instant of its own is ever refused: each
      gets a row and a claim of its own, however often its event was processed before. */
  lemma {:induction false} EveryReplayIsClaimed(ops: seq<Op>, i: nat)
    requires ArrivalsDiffer(ops) && i < |ops| && ops[i].Insert?
    ensures var w := Run(PerArrival, START, ops[..i]);
            ops[i].token !in w.workers ==> Admits(PerArrival, w, ops[i])
  {
    var w := Run(PerArrival, START, ops[..i]);
    forall k | k in w.rows ensures !Clashes(PerArrival, k, w.rows[k], ops[i].event, ops[i].hash, ops[i].now) {
      ArrivalsComeFromTheRun(PerArrival, ops[..i], k);
      var j :| 0 <= j < i && ops[..i][j].Insert? && ops[..i][j].now == k.arrival;
      assert ops[j] == ops[..i][j];
    }
  }

  /** The smallest such run: an event is claimed and processed, and five seconds later a replay of it is
      claimed again on a second row, although each claimant marks at most once. */
  lemma {:induction false} ReplayOfAProcessedEventIsClaimed(event: EventKey, hash: string)
    ensures var ops := [Insert(1, event, hash, 0), Mark(1, Processed), Insert(2, event, hash, 5)];
            var rows := Run(PerArrival, START, ops).rows;
            && MarksAtMostOnce(ops)
            && RowKey(event, 0) in rows && rows[RowKey(event, 0)].state == Processed
            && RowKey(event, 5) in rows && rows[RowKey(event, 5)] == Row(hash, Received, 2, 5, 0)
  {
    var ops := [Insert(1, event, hash, 0), Mark(1, Processed), Insert(2, event, hash, 5)];
    RunTo(PerArrival, ops, 0);
    RunTo(PerArrival, ops, 1);
    RunTo(PerArrival, ops, 2);
    assert ops[..0] == [] && ops[..3] == ops;
  }
}
