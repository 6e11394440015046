/** The maintenance script that retires the escrow ledger: refunds are debited against open holds
    first, then what is left of a releasable hold is released. It may be run any number of times. */
module EscrowZeroOut {

  import opened Basics
  import opened EscrowLedger

  datatype RefundRow = RefundRow(id: nat, amount: int)

  /** One row of the open-holds query with the refunds of its payment. `kindOk`: a processed transfer
      exists, or the payment never went through the gateway. */
  datatype HoldRow = HoldRow(hold: nat, amount: int, alreadyDebited: int, kindOk: bool, refunds: seq<RefundRow>)

  /** `ok` turns false when a posting raises, which ends the script. `recounted` sums the debits
      computed for refunds that an earlier run had already posted. */
  datatype Progress = Progress(s: State, remaining: int, recounted: int, debits: nat, ok: bool)

  function RefundRequest(h: Entry, refund: nat, debit: int): Request {
    Request(h.merchant, Refund, debit, 0, h.currency, h.payment, None, 0, Some(RefundKey(refund)))
  }

  function ReleaseRest(h: Entry, hold: nat, amount: int): Request {
    Request(h.merchant, Release, amount, 0, h.currency, h.payment, Some(hold), 0, Some(ReleaseKey(hold)))
  }

  function PayRefund(p: Progress, h: Entry, r: RefundRow): Progress {
    var debit := Min(r.amount, Max(p.remaining, 0));
    if !p.ok || debit <= 0 then p
    else
      var request := RefundRequest(h, r.id, debit);
      if Check(p.s, request).Refused? then p.(ok := false)
      else Progress(Post(p.s, request), p.remaining - debit,
                    p.recounted + (if Check(p.s, request).Existing? then debit else 0), p.debits + 1, true)
  }

  function PayRefunds(p: Progress, h: Entry, refunds: seq<RefundRow>): Progress {
    if refunds == [] then p
    else PayRefund(PayRefunds(p, h, refunds[..|refunds| - 1]), h, refunds[|refunds| - 1])
  }

  function Begin(s: State, row: HoldRow): Progress { Progress(s, row.amount - row.alreadyDebited, 0, 0, true) }

  /** A unique violation on the release is swallowed: an earlier run has released the hold. */
  function ReleaseRemaining(p: Progress, h: Entry, row: HoldRow): Progress {
    if !p.ok || !row.kindOk || p.remaining <= 0 then p
    else
      var request := ReleaseRest(h, row.hold, p.remaining);
      if Check(p.s, request).Refused? && (h.merchant, row.hold) !in p.s.links then p.(ok := false)
      else p.(s := Post(p.s, request))
  }

  function ProcessHold(s: State, row: HoldRow): Progress
    requires IsHold(s, row.hold)
  {
    var h := s.entries[row.hold];
    ReleaseRemaining(PayRefunds(Begin(s, row), h, row.refunds), h, row)
  }

  /** The rows a run fetches fit the ledger: open holds, their credit and what was debited so far. */
  predicate RowFits(s: State, row: HoldRow) {
    && IsHold(s, row.hold)
    && (s.entries[row.hold].merchant, row.hold) !in s.links
    && row.amount == s.entries[row.hold].credit
    && row.alreadyDebited == DebitedFor(s.entries, s.entries[row.hold].merchant, s.entries[row.hold].payment)
  }

  ghost predicate Sound(s: State) { WellFormed(s) && Agrees(s) && Solvent(s) }

  // ----- one hold -----

  lemma {:induction false} RefundLowers(s: State, hold: nat, refund: nat, debit: int)
    requires WellFormed(s) && IsHold(s, hold) && debit > 0
    requires Check(s, RefundRequest(s.entries[hold], refund, debit)).Posted?
    ensures var s' := Post(s, RefundRequest(s.entries[hold], refund, debit));
            && Outstanding(s', hold) == Outstanding(s, hold) - debit
            && forall i: nat :: i != hold ==> Outstanding(s', i) == Outstanding(s, i)
  {
    var h := s.entries[hold];
    var s' := Post(s, RefundRequest(h, refund, debit));
    DebitedAppend(s.entries, s'.entries[|s.entries|]);
    forall i: nat | i != hold ensures Outstanding(s', i) == Outstanding(s, i) {
      if IsHold(s, i) { assert !SamePayment(s.entries[i], h); }
    }
  }

  lemma {:induction false} RefundAgrees(s: State, hold: nat, refund: nat, debit: int)
    requires WellFormed(s) && Agrees(s) && IsHold(s, hold) && debit > 0
    requires Check(s, RefundRequest(s.entries[hold], refund, debit)).Posted?
    ensures Agrees(Post(s, RefundRequest(s.entries[hold], refund, debit)))
  {
    var s', n := Post(s, RefundRequest(s.entries[hold], refund, debit)), |s.entries|;
    RefundLowers(s, hold, refund, debit);
    forall m: nat, c ensures Balance(s', m, c) == OutstandingTotal(s', m, c, n + 1) {
      TotalDrops(s, s', hold, debit, m, c, n);
    }
  }

  lemma {:induction false} RefundKeepsSound(s: State, hold: nat, refund: nat, debit: int)
    requires Sound(s) && IsHold(s, hold) && 0 < debit <= Outstanding(s, hold)
    ensures var r := RefundRequest(s.entries[hold], refund, debit);
            && !Check(s, r).Refused?
            && Sound(Post(s, r)) && s.entries <= Post(s, r).entries && Post(s, r).links == s.links
            && Outstanding(Post(s, r), hold) == Outstanding(s, hold) - (if Check(s, r).Posted? then debit else 0)
            && forall i: nat :: i != hold ==> Outstanding(Post(s, r), i) == Outstanding(s, i)
  {
    TotalCovers(s, hold, |s.entries|);
    if Check(s, RefundRequest(s.entries[hold], refund, debit)).Posted? {
      RefundLowers(s, hold, refund, debit);
      RefundAgrees(s, hold, refund, debit);
      RefundIsWellFormed(s, hold, refund, debit);
    }
  }

  lemma RefundIsWellFormed(s: State, hold: nat, refund: nat, debit: int)
    requires WellFormed(s) && IsHold(s, hold)
    requires Check(s, RefundRequest(s.entries[hold], refund, debit)).Posted?
    ensures WellFormed(Post(s, RefundRequest(s.entries[hold], refund, debit)))
  {
    var s' := Post(s, RefundRequest(s.entries[hold], refund, debit));
    DebitedAppend(s.entries, s'.entries[|s.entries|]);
    assert ProperHold(s, s.entries[hold]);
    assert forall i: nat :: IsHold(s', i) ==> i < |s.entries| && s'.entries[i] == s.entries[i] && IsHold(s, i);
  }

  /** What the refund loop maintains for its hold: the computed remainder falls short of what is
      really outstanding by exactly the recounted debits. */
  ghost predicate LoopInv(p: Progress, s: State, hold: nat) {
    && p.ok && Sound(p.s) && s.entries <= p.s.entries && p.s.links == s.links
    && IsHold(s, hold)
    && p.remaining >= 0 && p.recounted >= 0
    && Outstanding(p.s, hold) == p.remaining + p.recounted
    && forall i: nat :: i != hold ==> Outstanding(p.s, i) == Outstanding(s, i)
  }

  lemma PayRefundKeeps(p: Progress, s: State, hold: nat, r: RefundRow)
    requires LoopInv(p, s, hold)
    ensures LoopInv(PayRefund(p, s.entries[hold], r), s, hold)
  {
    var debit := Min(r.amount, Max(p.remaining, 0));
    if debit > 0 {
      RefundKeepsSound(p.s, hold, r.id, debit);
    }
  }

  lemma {:induction false} PayRefundsKeeps(p: Progress, s: State, hold: nat, refunds: seq<RefundRow>)
    requires LoopInv(p, s, hold)
    ensures LoopInv(PayRefunds(p, s.entries[hold], refunds), s, hold)
  {
    if refunds != [] {
      PayRefundsKeeps(p, s, hold, refunds[..|refunds| - 1]);
      PayRefundKeeps(PayRefunds(p, s.entries[hold], refunds[..|refunds| - 1]), s, hold, refunds[|refunds| - 1]);
    }
  }

  /** What happens to every other hold. */
  ghost predicate SameHold(s: State, s': State, i: nat) {
    && Outstanding(s', i) == Outstanding(s, i)
    && forall m: nat :: (m, i) in s'.links <==> (m, i) in s.links
  }

  lemma ReleaseZeroes(s: State, hold: nat, amount: int)
    requires Sound(s) && IsHold(s, hold) && 0 < amount <= Outstanding(s, hold)
    requires (s.entries[hold].merchant, hold) !in s.links
    ensures var s' := Post(s, ReleaseRest(s.entries[hold], hold, amount));
            && Check(s, ReleaseRest(s.entries[hold], hold, amount)).Posted?
            && Sound(s') && s.entries <= s'.entries
            && Outstanding(s', hold) == Outstanding(s, hold) - amount
            && forall i: nat :: i != hold ==> SameHold(s, s', i)
  {
    var h := s.entries[hold];
    var r := ReleaseRest(h, hold, amount);
    TotalCovers(s, hold, |s.entries|);
    assert ProperHold(s, h) && (h.merchant, ReleaseKey(hold)) !in s.keys;
    ReleaseKeepsAgreement(s, r);
    DebitedAppend(s.entries, Post(s, r).entries[|s.entries|]);
  }

  /** Processing one open hold never raises, overdraws nothing and touches no other hold. A
      releasable hold ends with exactly the recounted debits still outstanding. */
  lemma HoldIsProcessed(s: State, row: HoldRow)
    requires Sound(s) && RowFits(s, row)
    ensures var p := ProcessHold(s, row);
            && p.ok && Sound(p.s) && s.entries <= p.s.entries
            && p.recounted >= 0
            && (row.kindOk ==> Outstanding(p.s, row.hold) == p.recounted)
            && (!row.kindOk ==> p.s.links == s.links && Outstanding(p.s, row.hold) == p.remaining + p.recounted)
            && (forall i: nat :: i != row.hold ==> SameHold(s, p.s, i))
  {
    var h := s.entries[row.hold];
    BeginFits(s, row);
    PayRefundsKeeps(Begin(s, row), s, row.hold, row.refunds);
    AfterTheLoop(PayRefunds(Begin(s, row), h, row.refunds), s, row);
  }

  lemma BeginFits(s: State, row: HoldRow)
    requires Sound(s) && RowFits(s, row)
    ensures LoopInv(Begin(s, row), s, row.hold)
  {
    assert Outstanding(s, row.hold) >= 0;
  }

  lemma AfterTheLoop(q: Progress, s: State, row: HoldRow)
    requires RowFits(s, row) && LoopInv(q, s, row.hold)
    ensures var p := ReleaseRemaining(q, s.entries[row.hold], row);
            && p.ok && Sound(p.s) && s.entries <= p.s.entries
            && p.recounted == q.recounted && p.remaining == q.remaining
            && (row.kindOk ==> Outstanding(p.s, row.hold) == p.recounted)
            && (!row.kindOk ==> p.s == q.s)
            && (forall i: nat :: i != row.hold ==> SameHold(s, p.s, i))
  {
    if row.kindOk && q.remaining > 0 {
      ReleaseZeroes(q.s, row.hold, q.remaining);
      forall i: nat | i != row.hold ensures SameHold(s, ReleaseRemaining(q, s.entries[row.hold], row).s, i) {
        assert SameHold(s, q.s, i);
      }
    }
  }

  // ----- refunds and their owners -----

  /** A posted refund key belongs to a debit for the refund's own payment; debits are not negative. */
  ghost predicate RefundsOwned(s: State, owner: nat -> nat) {
    && (forall e :: e in s.entries ==> e.debit >= 0)
    && (forall m: nat, r: nat :: (m, RefundKey(r)) in s.keys ==>
          exists e :: e in s.entries && e.kind == Refund && e.merchant == m && e.payment == Some(owner(r)) && e.debit > 0)
  }

  lemma PostKeepsOwned(s: State, r: Request, owner: nat -> nat)
    requires RefundsOwned(s, owner)
    requires r.key.Some? && r.key.value.RefundKey? ==>
               r.kind == Refund && r.debit > 0 && r.payment == Some(owner(r.key.value.refund))
    ensures RefundsOwned(Post(s, r), owner)
  {
    if Check(s, r).Posted? {
      var s' := Post(s, r);
      var e := s'.entries[|s.entries|];
      assert s'.entries == s.entries + [e];
      forall m: nat, k: nat | (m, RefundKey(k)) in s'.keys
        ensures exists e :: e in s'.entries && e.kind == Refund && e.merchant == m && e.payment == Some(owner(k)) && e.debit > 0
      {
        if (m, RefundKey(k)) in s.keys {
          var x :| x in s.entries && x.kind == Refund && x.merchant == m && x.payment == Some(owner(k)) && x.debit > 0;
          assert x in s'.entries;
        } else {
          assert e in s'.entries;
        }
      }
    }
  }

  lemma {:induction false} RefundLoopKeepsOwned(p: Progress, h: Entry, refunds: seq<RefundRow>, owner: nat -> nat)
    requires RefundsOwned(p.s, owner) && h.payment.Some?
    requires forall i :: 0 <= i < |refunds| ==> owner(refunds[i].id) == h.payment.value
    ensures RefundsOwned(PayRefunds(p, h, refunds).s, owner)
  {
    if refunds != [] {
      var n := |refunds| - 1;
      RefundLoopKeepsOwned(p, h, refunds[..n], owner);
      var q := PayRefunds(p, h, refunds[..n]);
      var debit := Min(refunds[n].amount, Max(q.remaining, 0));
      if debit > 0 { PostKeepsOwned(q.s, RefundRequest(h, refunds[n].id, debit), owner); }
    }
  }

  /** Ownership of refund keys holds after every run of the service and is kept by the script. */
  lemma ProcessKeepsOwned(s: State, row: HoldRow, owner: nat -> nat)
    requires RefundsOwned(s, owner) && IsHold(s, row.hold) && s.entries[row.hold].payment.Some?
    requires OwnRefunds(row.refunds, owner, s.entries[row.hold].payment.value)
    ensures RefundsOwned(ProcessHold(s, row).s, owner)
  {
    var h := s.entries[row.hold];
    RefundLoopKeepsOwned(Begin(s, row), h, row.refunds, owner);
    var q := PayRefunds(Begin(s, row), h, row.refunds);
    PostKeepsOwned(q.s, ReleaseRest(h, row.hold, q.remaining), owner);
  }

  lemma {:induction false} ServiceKeepsOwned(ops: seq<Op>, owner: nat -> nat)
    ensures RefundsOwned(Run(ops), owner)
  {
    if ops != [] {
      var s, op := Run(ops[..|ops| - 1]), ops[|ops| - 1];
      ServiceKeepsOwned(ops[..|ops| - 1], owner);
      match op
      case TakeHold(m, p, amount, c, until) => PostKeepsOwned(s, HoldRequest(m, p, amount, c, until), owner);
      case Cron(due) => CronKeepsOwned(s, due, owner);
      case Settle(m, rows) => SettleKeepsOwned(s, m, rows, owner);
    }
  }

  lemma {:induction false} CronKeepsOwned(s: State, due: seq<nat>, owner: nat -> nat)
    requires RefundsOwned(s, owner)
    ensures RefundsOwned(ReleaseEach(s, due), owner)
  {
    if due != [] {
      var before, h := ReleaseEach(s, due[..|due| - 1]), due[|due| - 1];
      CronKeepsOwned(s, due[..|due| - 1], owner);
      if IsHold(before, h) {
        PostKeepsOwned(before, ReleaseRequest(before.entries[h].merchant, h, before.entries[h].credit), owner);
      }
    }
  }

  lemma {:induction false} SettleKeepsOwned(s: State, m: nat, rows: seq<(nat, int)>, owner: nat -> nat)
    requires RefundsOwned(s, owner)
    ensures RefundsOwned(SettleEach(s, m, rows), owner)
  {
    if rows != [] {
      var before := SettleEach(s, m, rows[..|rows| - 1]);
      SettleKeepsOwned(s, m, rows[..|rows| - 1], owner);
      var f := FindHold(before.entries, m, rows[|rows| - 1].0);
      if f.Some? && IsHold(before, f.value) {
        PostKeepsOwned(before,
          ReleaseRequest(before.entries[f.value].merchant, f.value, before.entries[f.value].credit), owner);
      }
    }
  }

  lemma {:induction false} DebitsAddUp(entries: seq<Entry>, m: nat, payment: Option<nat>)
    requires forall e :: e in entries ==> e.debit >= 0
    ensures DebitedFor(entries, m, payment) >= 0
    ensures (exists e :: e in entries && DebitOf(e, m, payment) > 0) ==> DebitedFor(entries, m, payment) > 0
  {
    if entries != [] {
      var n := |entries| - 1;
      DebitsAddUp(entries[..n], m, payment);
      assert entries == entries[..n] + [entries[n]];
      assert DebitOf(entries[n], m, payment) >= 0;
    }
  }

  predicate OwnRefunds(refunds: seq<RefundRow>, owner: nat -> nat, payment: nat) {
    && (forall i :: 0 <= i < |refunds| ==> owner(refunds[i].id) == payment)
    && (forall i, j :: 0 <= i < j < |refunds| ==> refunds[i].id != refunds[j].id)
  }

  /** Keys added by the loop are those of the refunds it has handled. */
  lemma {:induction false} NothingRecounted(p: Progress, s: State, hold: nat, refunds: seq<RefundRow>)
    requires LoopInv(p, s, hold) && p.recounted == 0
    requires forall i, j :: 0 <= i < j < |refunds| ==> refunds[i].id != refunds[j].id
    requires forall i :: 0 <= i < |refunds| ==> (s.entries[hold].merchant, RefundKey(refunds[i].id)) !in p.s.keys
    ensures var q := PayRefunds(p, s.entries[hold], refunds);
            && q.recounted == 0
            && forall m: nat, r: nat :: (m, RefundKey(r)) in q.s.keys ==>
                 (m, RefundKey(r)) in p.s.keys || exists i :: 0 <= i < |refunds| && refunds[i].id == r
  {
    if refunds != [] {
      var n := |refunds| - 1;
      var front := refunds[..n];
      PayRefundsKeeps(p, s, hold, front);
      assert forall i :: 0 <= i < n ==> front[i] == refunds[i];
      NothingRecounted(p, s, hold, front);
    }
  }

  // ----- what a run counts -----

  /** What is left of `start` after the refunds, whatever the ledger says about them. */
  function Remaining(start: int, refunds: seq<RefundRow>): int {
    if refunds == [] then start else Less(Remaining(start, refunds[..|refunds| - 1]), refunds[|refunds| - 1].amount)
  }

  /** One refund takes what it asks for, as far as something is left. */
  function Less(remaining: int, amount: int): int {
    var debit := Min(amount, Max(remaining, 0));
    if debit <= 0 then remaining else remaining - debit
  }

  lemma {:induction false} RemainingIsPure(p: Progress, h: Entry, refunds: seq<RefundRow>)
    requires PayRefunds(p, h, refunds).ok
    ensures PayRefunds(p, h, refunds).remaining == Remaining(p.remaining, refunds)
  {
    if refunds != [] { RemainingIsPure(p, h, refunds[..|refunds| - 1]); }
  }

  predicate Releasable(row: HoldRow) { row.kindOk && Remaining(row.amount - row.alreadyDebited, row.refunds) > 0 }

  function CountReleasable(rows: seq<HoldRow>): nat {
    if rows == [] then 0 else CountReleasable(rows[..|rows| - 1]) + if Releasable(rows[|rows| - 1]) then 1 else 0
  }

  // ----- when a run falls short -----

  function Positive(refunds: seq<RefundRow>): int {
    if refunds == [] then 0 else Positive(refunds[..|refunds| - 1]) + Max(refunds[|refunds| - 1].amount, 0)
  }

  /** Refund `i` was debited by an earlier run, and the refunds before it leave the run something to
      subtract for it again. */
  predicate WillRecount(known: map<(nat, Key), nat>, m: nat, remaining: int, refunds: seq<RefundRow>, i: nat) {
    && i < |refunds| && refunds[i].amount > 0
    && (m, RefundKey(refunds[i].id)) in known
    && Positive(refunds[..i]) < remaining
  }

  ghost predicate Recounts(known: map<(nat, Key), nat>, m: nat, remaining: int, refunds: seq<RefundRow>) {
    exists i: nat :: WillRecount(known, m, remaining, refunds, i)
  }

  predicate DistinctIds(refunds: seq<RefundRow>) {
    forall i, j :: 0 <= i < j < |refunds| ==> refunds[i].id != refunds[j].id
  }

  predicate Mentions(refunds: seq<RefundRow>, id: nat) { exists i :: 0 <= i < |refunds| && refunds[i].id == id }

  /** The keys of the loop: none is lost, and a new one belongs to a refund it handled. */
  lemma {:induction false} LoopKeys(p: Progress, h: Entry, refunds: seq<RefundRow>, id: nat)
    ensures var q := PayRefunds(p, h, refunds);
            && ((h.merchant, RefundKey(id)) in p.s.keys ==> (h.merchant, RefundKey(id)) in q.s.keys)
            && ((h.merchant, RefundKey(id)) in q.s.keys && !Mentions(refunds, id) ==> (h.merchant, RefundKey(id)) in p.s.keys)
  {
    if refunds != [] {
      var n := |refunds| - 1;
      var front := refunds[..n];
      LoopKeys(p, h, front, id);
      assert refunds[n].id == id ==> Mentions(refunds, id);
      if Mentions(front, id) {
        var i :| 0 <= i < |front| && front[i].id == id;
        assert refunds[i].id == id;
      }
    }
  }

  lemma {:induction false} PositiveGrows(refunds: seq<RefundRow>)
    ensures Positive(refunds) >= 0
  {
    if refunds != [] { PositiveGrows(refunds[..|refunds| - 1]); }
  }

  lemma {:induction false} LoopRemaining(p: Progress, s: State, hold: nat, refunds: seq<RefundRow>)
    requires LoopInv(p, s, hold)
    ensures PayRefunds(p, s.entries[hold], refunds).remaining == Max(0, p.remaining - Positive(refunds))
  {
    if refunds != [] {
      var n := |refunds| - 1;
      LoopRemaining(p, s, hold, refunds[..n]);
      PayRefundsKeeps(p, s, hold, refunds[..n]);
      PositiveGrows(refunds[..n]);
      PayRefundKeeps(PayRefunds(p, s.entries[hold], refunds[..n]), s, hold, refunds[n]);
    }
  }

  lemma {:induction false} LastRecount(q: Progress, h: Entry, r: RefundRow)
    requires q.ok && q.remaining >= 0 && q.recounted >= 0 && PayRefund(q, h, r).ok
    ensures PayRefund(q, h, r).recounted > 0
       <==> q.recounted > 0 || (r.amount > 0 && q.remaining > 0 && (h.merchant, RefundKey(r.id)) in q.s.keys)
  {
  }

  lemma {:induction false} RecountsIff(p: Progress, s: State, hold: nat, refunds: seq<RefundRow>)
    requires LoopInv(p, s, hold) && p.recounted == 0 && DistinctIds(refunds)
    ensures var h := s.entries[hold];
            PayRefunds(p, h, refunds).recounted > 0 <==> Recounts(p.s.keys, h.merchant, p.remaining, refunds)
  {
    if refunds != [] {
      var n, h := |refunds| - 1, s.entries[hold];
      var front := refunds[..n];
      RecountsIff(p, s, hold, front);
      LastRefundRecounts(p, s, hold, refunds);
      WillRecountSnoc(p.s.keys, h.merchant, p.remaining, refunds);
    }
  }

  lemma {:induction false} LastRefundRecounts(p: Progress, s: State, hold: nat, refunds: seq<RefundRow>)
    requires LoopInv(p, s, hold) && DistinctIds(refunds) && refunds != []
    ensures var n, h := |refunds| - 1, s.entries[hold];
            PayRefunds(p, h, refunds).recounted > 0
            <==> PayRefunds(p, h, refunds[..n]).recounted > 0
                 || WillRecount(p.s.keys, h.merchant, p.remaining, refunds, n)
  {
    var n, h := |refunds| - 1, s.entries[hold];
    var front := refunds[..n];
    PayRefundsKeeps(p, s, hold, front);
    PayRefundsKeeps(p, s, hold, refunds);
    LoopRemaining(p, s, hold, front);
    LoopKeys(p, h, front, refunds[n].id);
    assert !Mentions(front, refunds[n].id);
    LastRecount(PayRefunds(p, h, front), h, refunds[n]);
  }

  lemma {:induction false} WillRecountSnoc(known: map<(nat, Key), nat>, m: nat, remaining: int, refunds: seq<RefundRow>)
    requires refunds != []
    ensures var n := |refunds| - 1;
            Recounts(known, m, remaining, refunds)
            <==> Recounts(known, m, remaining, refunds[..n]) || WillRecount(known, m, remaining, refunds, n)
  {
    var n := |refunds| - 1;
    forall i: nat | i < n
      ensures WillRecount(known, m, remaining, refunds, i) <==> WillRecount(known, m, remaining, refunds[..n], i)
    {
      assert refunds[..n][..i] == refunds[..i];
    }
    if i: nat :| WillRecount(known, m, remaining, refunds[..n], i) {
      assert WillRecount(known, m, remaining, refunds, i);
    }
    if i: nat :| WillRecount(known, m, remaining, refunds, i) {
      assert i < n ==> WillRecount(known, m, remaining, refunds[..n], i);
    }
  }

  /** Exactly when one run zeroes a releasable hold, in terms of what it fetches: refund debits,
      earlier debits and the release add up to the credit unless some positive refund already has its
      debit in the ledger and comes up while the refunds before it leave something of the hold. */
  lemma {:induction false} ZeroedIff(s: State, row: HoldRow)
    requires Sound(s) && RowFits(s, row) && row.kindOk && DistinctIds(row.refunds)
    ensures Outstanding(ProcessHold(s, row).s, row.hold) == 0
       <==> !Recounts(s.keys, s.entries[row.hold].merchant, row.amount - row.alreadyDebited, row.refunds)
  {
    BeginFits(s, row);
    RecountsIff(Begin(s, row), s, row.hold, row.refunds);
    HoldIsProcessed(s, row);
    RecountedIsLoops(s, row);
  }

  lemma {:induction false} RecountedIsLoops(s: State, row: HoldRow)
    requires IsHold(s, row.hold)
    ensures ProcessHold(s, row).recounted == PayRefunds(Begin(s, row), s.entries[row.hold], row.refunds).recounted
  {
  }

  /** A releasable hold without earlier debits is zeroed by one run: its refund debits plus its
      release equal its credit. */
  lemma FreshHoldIsZeroed(s: State, row: HoldRow, owner: nat -> nat)
    requires Sound(s) && RowFits(s, row) && row.kindOk && RefundsOwned(s, owner)
    requires OwnRefunds(row.refunds, owner, s.entries[row.hold].payment.value)
    requires row.alreadyDebited == 0
    ensures Outstanding(ProcessHold(s, row).s, row.hold) == 0
  {
    var h := s.entries[row.hold];
    assert ProperHold(s, h);
    forall i | 0 <= i < |row.refunds| ensures (h.merchant, RefundKey(row.refunds[i].id)) !in s.keys {
      DebitsAddUp(s.entries, h.merchant, h.payment);
      assert forall e :: e in s.entries ==> DebitOf(e, h.merchant, h.payment) <= 0;
    }
    NothingRecounted(Begin(s, row), s, row.hold, row.refunds);
    HoldIsProcessed(s, row);
  }

  /** Why the condition matters. A hold of `c` has one refund of `a`, and its transfer is processed
      only after a first run: that run debits the refund and leaves the hold open; the second run
      subtracts the refund again without posting it, releases less, and strands the difference. */
  lemma LateTransferStrandsTheRefund(s: State, row: HoldRow)
    requires Sound(s) && RowFits(s, row) && !row.kindOk && row.alreadyDebited == 0
    requires |row.refunds| == 1 && 0 < row.refunds[0].amount < row.amount
    requires (s.entries[row.hold].merchant, RefundKey(row.refunds[0].id)) !in s.keys
    ensures var s1, a := ProcessHold(s, row).s, row.refunds[0].amount;
            var again := row.(alreadyDebited := a, kindOk := true);
            && RowFits(s1, again)
            && Outstanding(ProcessHold(s1, again).s, row.hold) == Min(a, row.amount - a) > 0
  {
    var again := row.(alreadyDebited := row.refunds[0].amount, kindOk := true);
    EarlyRun(s, row);
    LateRun(ProcessHold(s, row).s, again);
  }

  /** The first run posts the refund's debit and nothing else. */
  lemma EarlyRun(s: State, row: HoldRow)
    requires Sound(s) && RowFits(s, row) && !row.kindOk && row.alreadyDebited == 0
    requires |row.refunds| == 1 && 0 < row.refunds[0].amount < row.amount
    requires (s.entries[row.hold].merchant, RefundKey(row.refunds[0].id)) !in s.keys
    ensures var s1, r := ProcessHold(s, row).s, row.refunds[0];
            && s1 == Post(s, RefundRequest(s.entries[row.hold], r.id, r.amount)) && Sound(s1)
            && (s.entries[row.hold].merchant, RefundKey(r.id)) in s1.keys
            && RowFits(s1, row.(alreadyDebited := r.amount, kindOk := true))
  {
    var h, r := s.entries[row.hold], row.refunds[0];
    OneRefund(Begin(s, row), h, row.refunds);
    assert Outstanding(s, row.hold) == row.amount;
    RefundKeepsSound(s, row.hold, r.id, r.amount);
    DebitedAppend(s.entries, Post(s, RefundRequest(h, r.id, r.amount)).entries[|s.entries|]);
  }

  /** A run that finds its only refund debited already subtracts it again. */
  lemma LateRun(s: State, row: HoldRow)
    requires Sound(s) && RowFits(s, row) && row.kindOk
    requires |row.refunds| == 1 && 0 < row.refunds[0].amount == row.alreadyDebited < row.amount
    requires (s.entries[row.hold].merchant, RefundKey(row.refunds[0].id)) in s.keys
    ensures Outstanding(ProcessHold(s, row).s, row.hold) == Min(row.alreadyDebited, row.amount - row.alreadyDebited)
  {
    OneRefund(Begin(s, row), s.entries[row.hold], row.refunds);
    HoldIsProcessed(s, row);
  }

  /** A full release after the script has debited a refund: cron and settlement release the whole credit,
      so a rupee hold is debited by its credit and the refund together, as soon as the merchant's other
      holds cover the difference. */
  lemma {:induction false} ReleaseAfterRefundOverdraws(s: State, row: HoldRow)
    requires Sound(s) && RowFits(s, row) && !row.kindOk && row.alreadyDebited == 0
    requires |row.refunds| == 1 && 0 < row.refunds[0].amount < row.amount
    requires s.entries[row.hold].currency == INR
    requires (s.entries[row.hold].merchant, RefundKey(row.refunds[0].id)) !in s.keys
    requires Balance(s, s.entries[row.hold].merchant, INR) >= row.amount + row.refunds[0].amount
    ensures Outstanding(ReleaseFull(ProcessHold(s, row).s, row.hold), row.hold) == -row.refunds[0].amount
  {
    var s1, h := ProcessHold(s, row).s, row.hold;
    EarlyRun(s, row);
    assert s1.entries[h] == s.entries[h] && ProperHold(s1, s1.entries[h]);
    var r := ReleaseRequest(s1.entries[h].merchant, h, s1.entries[h].credit);
    assert Check(s1, r).Posted?;
    DebitedAppend(s1.entries, Post(s1, r).entries[|s1.entries|]);
  }

  lemma {:induction false} TwoRupeeHolds(m: nat)
    ensures var s := Run([TakeHold(m, 1, 100, INR, 0), TakeHold(m, 2, 100, INR, 0)]);
            && s.entries == [Entry(m, Hold, 0, 100, 100, INR, Some(1), None, 0),
                             Entry(m, Hold, 0, 100, 200, INR, Some(2), None, 0)]
            && s.balances == map[(m, INR) := 200] && s.links == map[]
            && s.keys == map[(m, HoldKey(1)) := 0, (m, HoldKey(2)) := 1]
  {
    var ops := [TakeHold(m, 1, 100, INR, 0), TakeHold(m, 2, 100, INR, 0)];
    assert ops[..0] == [] && ops[..2] == ops;
    RunTo(ops, 0);
    var s1 := Run(ops[..1]);
    assert s1 == Post(EMPTY, HoldRequest(m, 1, 100, INR, 0));
    assert s1.balances == map[(m, INR) := 100] && s1.keys == map[(m, HoldKey(1)) := 0];
    RunTo(ops, 1);
    assert Run(ops) == Post(s1, HoldRequest(m, 2, 100, INR, 0));
  }

  /** With two holds of a hundred and a refund of sixty on the first, which has no processed transfer yet:
      the script debits sixty, cron releases a hundred, a hundred and sixty in all. */
  lemma {:induction false} HundredAndSixtyOfAHundred(m: nat)
    ensures var s := Run([TakeHold(m, 1, 100, INR, 0), TakeHold(m, 2, 100, INR, 0)]);
            var row := HoldRow(0, 100, 0, false, [RefundRow(5, 60)]);
            && RowFits(s, row) && Sound(s)
            && Outstanding(ReleaseFull(ProcessHold(s, row).s, 0), 0) == -60
  {
    var ops := [TakeHold(m, 1, 100, INR, 0), TakeHold(m, 2, 100, INR, 0)];
    var s := Run(ops);
    TwoRupeeHolds(m);
    RunIsSettled(ops);
    SettledIsSolvent(s);
    assert DebitedFor(s.entries, m, Some(1)) == 0;
    ReleaseAfterRefundOverdraws(s, HoldRow(0, 100, 0, false, [RefundRow(5, 60)]));
  }

  lemma OneRefund(p: Progress, h: Entry, refunds: seq<RefundRow>)
    requires |refunds| == 1
    ensures PayRefunds(p, h, refunds) == PayRefund(p, h, refunds[0])
  {
    assert refunds[..0] == [];
  }

  // ----- runs -----

  /** The rows of one run name different holds. */
  ghost predicate RowsFit(s: State, rows: seq<HoldRow>) {
    && (forall i :: 0 <= i < |rows| ==> RowFits(s, rows[i]))
    && (forall i, j :: 0 <= i < j < |rows| ==> rows[i].hold != rows[j].hold)
  }

  function RunOnce(s: State, rows: seq<HoldRow>): (State, bool) {
    if rows == [] then (s, true)
    else
      var before := RunOnce(s, rows[..|rows| - 1]);
      var row := rows[|rows| - 1];
      if !before.1 || !IsHold(before.0, row.hold) then before
      else var p := ProcessHold(before.0, row); (p.s, p.ok)
  }

  lemma StillFits(s: State, s': State, row: HoldRow)
    requires RowFits(s, row) && s.entries <= s'.entries && Outstanding(s', row.hold) == Outstanding(s, row.hold)
    requires (s.entries[row.hold].merchant, row.hold) !in s'.links
    ensures RowFits(s', row)
  {
  }

  predicate Untouched(rows: seq<HoldRow>, i: nat) { forall k :: 0 <= k < |rows| ==> rows[k].hold != i }

  /** One run over all open holds never raises and leaves every hold within its credit; a releasable
      hold keeps outstanding only what was recounted, and the balances still agree. */
  lemma {:induction false} RunIsSound(s: State, rows: seq<HoldRow>)
    requires Sound(s) && RowsFit(s, rows)
    ensures var r := RunOnce(s, rows);
            && r.1 && Sound(r.0) && s.entries <= r.0.entries
            && forall i: nat :: Untouched(rows, i) ==> SameHold(s, r.0, i)
  {
    if rows != [] {
      var n := |rows| - 1;
      var front, row := rows[..n], rows[n];
      assert RowsFit(s, front);
      RunIsSound(s, front);
      var s1 := RunOnce(s, front).0;
      assert Untouched(front, row.hold);
      StillFits(s, s1, row);
      HoldIsProcessed(s1, row);
      forall i: nat | Untouched(rows, i) ensures SameHold(s, RunOnce(s, rows).0, i) {
        assert rows[n].hold != i && Untouched(front, i);
        assert SameHold(s, s1, i) && SameHold(s1, RunOnce(s, rows).0, i);
      }
    }
  }

  /** A ledger reached by the service is one the script may start from exactly when the service released
      no hold in a currency other than rupees. */
  lemma {:induction false} ServiceLedgerIsSoundIff(ops: seq<Op>)
    ensures Sound(Run(ops)) <==> NoForeignRelease(Run(ops))
  {
    RunIsAccounted(ops);
    AgreesIffNoForeignRelease(Run(ops));
    forall i: nat ensures Outstanding(Run(ops), i) >= 0 {
      assert IsHold(Run(ops), i) ==> ProperHold(Run(ops), Run(ops).entries[i]);
    }
  }

  /** Successive runs, each over the rows its own query returned. */
  function Runs(s: State, batches: seq<seq<HoldRow>>): State {
    if batches == [] then s else RunOnce(Runs(s, batches[..|batches| - 1]), batches[|batches| - 1]).0
  }

  ghost predicate BatchesFit(s: State, batches: seq<seq<HoldRow>>) {
    forall i :: 0 <= i < |batches| ==> RowsFit(Runs(s, batches[..i]), batches[i])
  }

  /** Over any number of runs no hold is overdrawn, no balance strays from what is outstanding, and the
      ledger stays well-formed. */
  lemma {:induction false} NeverOverdrawn(s: State, batches: seq<seq<HoldRow>>)
    requires Sound(s) && BatchesFit(s, batches)
    ensures Sound(Runs(s, batches))
  {
    if batches != [] {
      var n := |batches| - 1;
      BatchesPrefix(s, batches);
      NeverOverdrawn(s, batches[..n]);
      RunIsSound(Runs(s, batches[..n]), batches[n]);
    }
  }

  lemma BatchesPrefix(s: State, batches: seq<seq<HoldRow>>)
    requires batches != [] && BatchesFit(s, batches)
    ensures BatchesFit(s, batches[..|batches| - 1])
    ensures RowsFit(Runs(s, batches[..|batches| - 1]), batches[|batches| - 1])
  {
    var front := batches[..|batches| - 1];
    forall i | 0 <= i < |front| ensures RowsFit(Runs(s, front[..i]), front[i]) {
      assert front[..i] == batches[..i] && front[i] == batches[i];
    }
  }

  /** A dry run touches nothing. */
  function ProcessOrNot(s: State, row: HoldRow, dryRun: bool): (State, bool)
    requires IsHold(s, row.hold)
  {
    if dryRun then (s, true) else var p := ProcessHold(s, row); (p.s, p.ok)
  }

  /** One turn of the script's outer loop. */
  method ZeroOutHold(ledger: EscrowService, row: HoldRow, dryRun: bool) returns (ok: bool, released: bool)
    requires IsHold(ledger.Tables(), row.hold)
    modifies ledger
    ensures old(ledger.entries) <= ledger.entries
    ensures (ledger.Tables(), ok) == ProcessOrNot(old(ledger.Tables()), row, dryRun)
    ensures ok ==> (released <==> Releasable(row))
  {
    var h := ledger.entries[row.hold];
    ghost var p0 := Begin(ledger.Tables(), row);
    var remaining;
    ok, remaining := DebitRefunds(ledger, row, dryRun);
    if ok && !dryRun {
      RemainingIsPure(p0, h, row.refunds);
    }
    released := ok && row.kindOk && remaining > 0;
    if released && !dryRun {
      var outcome := ledger.PostEntry(ReleaseRest(h, row.hold, remaining));
      ok := !(outcome.Refused? && (h.merchant, row.hold) !in ledger.links);
    }
  }

  function RunOrNot(s: State, rows: seq<HoldRow>, dryRun: bool): (State, bool) {
    if dryRun then (s, true) else RunOnce(s, rows)
  }

  /** The script's loops over a live ledger. `finished` is false when a posting raised. */
  method ZeroOut(ledger: EscrowService, rows: seq<HoldRow>, dryRun: bool)
      returns (finished: bool, released: nat, leftOpen: seq<nat>)
    requires forall row :: row in rows ==> IsHold(ledger.Tables(), row.hold)
    modifies ledger
    ensures (ledger.Tables(), finished) == RunOrNot(old(ledger.Tables()), rows, dryRun)
    ensures finished ==> leftOpen == LeftOpen(rows) && released == CountReleasable(rows)
  {
    released, leftOpen, finished := 0, [], true;
    ghost var s := ledger.Tables();
    for i := 0 to |rows|
      invariant finished && s.entries <= ledger.entries
      invariant (ledger.Tables(), true) == RunOrNot(s, rows[..i], dryRun)
      invariant leftOpen == LeftOpen(rows[..i]) && released == CountReleasable(rows[..i])
    {
      var row := rows[i];
      assert row in rows && IsHold(ledger.Tables(), row.hold);
      assert rows[..i + 1][..i] == rows[..i];
      var ok, paid := ZeroOutHold(ledger, row, dryRun);
      if !ok {
        RunStaysFailed(s, rows, i + 1);
        return false, released, leftOpen;
      }
      if paid {
        released := released + 1;
      }
      if !row.kindOk {
        leftOpen := leftOpen + [row.hold];
      }
    }
    assert rows[..|rows|] == rows;
  }

  lemma {:induction false} RunStaysFailed(s: State, rows: seq<HoldRow>, n: nat)
    requires n <= |rows| && !RunOnce(s, rows[..n]).1
    ensures RunOnce(s, rows) == RunOnce(s, rows[..n])
    decreases |rows| - n
  {
    if n < |rows| {
      assert rows[..n + 1][..n] == rows[..n];
      RunStaysFailed(s, rows, n + 1);
    } else {
      assert rows[..n] == rows;
    }
  }

  function LeftOpen(rows: seq<HoldRow>): seq<nat> {
    if rows == [] then []
    else LeftOpen(rows[..|rows| - 1]) + if rows[|rows| - 1].kindOk then [] else [rows[|rows| - 1].hold]
  }

  /** The refund loop, or nothing of it in a dry run. */
  function PayOrNot(s: State, row: HoldRow, refunds: seq<RefundRow>, dryRun: bool): (State, bool)
    requires IsHold(s, row.hold)
  {
    if dryRun then (s, true) else var p := PayRefunds(Begin(s, row), s.entries[row.hold], refunds); (p.s, p.ok)
  }

  /** The inner loop: one capped debit per refund, posted under the refund's own key. */
  method DebitRefunds(ledger: EscrowService, row: HoldRow, dryRun: bool) returns (ok: bool, remaining: int)
    requires IsHold(ledger.Tables(), row.hold)
    modifies ledger
    ensures old(ledger.entries) <= ledger.entries
    ensures (ledger.Tables(), ok) == PayOrNot(old(ledger.Tables()), row, row.refunds, dryRun)
    ensures ok ==> remaining == Remaining(row.amount - row.alreadyDebited, row.refunds)
  {
    ok, remaining := true, row.amount - row.alreadyDebited;
    ghost var s := ledger.Tables();
    var h := ledger.entries[row.hold];
    for i := 0 to |row.refunds|
      invariant ok && s.entries <= ledger.entries
      invariant (ledger.Tables(), true) == PayOrNot(s, row, row.refunds[..i], dryRun)
      invariant remaining == Remaining(row.amount - row.alreadyDebited, row.refunds[..i])
    {
      assert row.refunds[..i + 1][..i] == row.refunds[..i];
      var r := row.refunds[i];
      var debit := Min(r.amount, Max(remaining, 0));
      LoopStep(s, row, i, dryRun);
      if debit <= 0 {
        continue;
      }
      if !dryRun {
        var outcome := ledger.PostEntry(RefundRequest(h, r.id, debit));
        if outcome.Refused? {
          RefundsStayFailed(Begin(s, row), h, row.refunds, i + 1);
          return false, remaining;
        }
      }
      remaining := remaining - debit;
    }
    assert row.refunds[..|row.refunds|] == row.refunds;
  }

  /** One turn of that loop, as its specification sees it. */
  lemma {:induction false} LoopStep(s: State, row: HoldRow, i: nat, dryRun: bool)
    requires IsHold(s, row.hold) && i < |row.refunds| && PayOrNot(s, row, row.refunds[..i], dryRun).1
    ensures var before := PayOrNot(s, row, row.refunds[..i], dryRun).0;
            var after := PayOrNot(s, row, row.refunds[..i + 1], dryRun);
            var debit := Min(row.refunds[i].amount, Max(Remaining(row.amount - row.alreadyDebited, row.refunds[..i]),
                0));
            var request := RefundRequest(s.entries[row.hold], row.refunds[i].id, debit);
            after == if dryRun || debit <= 0 then (before, true)
                     else if Check(before, request).Refused? then (before, false)
                     else (Post(before, request), true)
  {
    assert row.refunds[..i + 1][..i] == row.refunds[..i];
    if !dryRun { RemainingIsPure(Begin(s, row), s.entries[row.hold], row.refunds[..i]); }
  }

  lemma {:induction false} RefundsStayFailed(p: Progress, h: Entry, refunds: seq<RefundRow>, n: nat)
    requires n <= |refunds| && !PayRefunds(p, h, refunds[..n]).ok
    ensures PayRefunds(p, h, refunds) == PayRefunds(p, h, refunds[..n])
    decreases |refunds| - n
  {
    if n < |refunds| {
      assert refunds[..n + 1][..n] == refunds[..n];
      RefundsStayFailed(p, h, refunds, n + 1);
    } else {
      assert refunds[..n] == refunds;
    }
  }

  // ----- script runs between cron and settlement releases -----

  /** Cron and settlement are sequences of single releases. */
  datatype Mixed =
    | Take(merchant: nat, payment: nat, amount: int, until: int)
    | ReleaseOne(hold: nat)
    | Script(rows: seq<HoldRow>)

  function MixedStep(s: State, step: Mixed): State {
    match step
    case Take(m, p, amount, until) => Post(s, HoldRequest(m, p, amount, INR, until))
    case ReleaseOne(h) => ReleaseFull(s, h)
    case Script(rows) => RunOnce(s, rows).0
  }

  function MixedRun(steps: seq<Mixed>): State {
    if steps == [] then EMPTY else MixedStep(MixedRun(steps[..|steps| - 1]), steps[|steps| - 1])
  }

  /** A full release that is posted finds nothing debited against its hold. */
  predicate Clean(s: State, step: Mixed) {
    step.ReleaseOne? && IsHold(s, step.hold)
    && Check(s, ReleaseRequest(s.entries[step.hold].merchant, step.hold, s.entries[step.hold].credit)).Posted?
    ==> DebitedFor(s.entries, s.entries[step.hold].merchant, s.entries[step.hold].payment) == 0
  }

  ghost predicate Fits(s: State, step: Mixed) { step.Script? ==> RowsFit(s, step.rows) }

  ghost predicate DebitsSigned(s: State) { forall e :: e in s.entries ==> e.debit >= 0 }

  /** Nothing but a new hold ever raises what is outstanding. */
  ghost predicate OnlyFalls(s: State, s': State) {
    && s.entries <= s'.entries && (DebitsSigned(s) ==> DebitsSigned(s'))
    && forall i: nat :: i < |s.entries| ==> Outstanding(s', i) <= Outstanding(s, i)
  }

  lemma {:induction false} PostOnlyLowers(s: State, r: Request)
    ensures OnlyFalls(s, Post(s, r))
  {
    if Check(s, r).Posted? {
      DebitedAppend(s.entries, Post(s, r).entries[|s.entries|]);
    }
  }

  lemma {:induction false} RefundsOnlyLower(p: Progress, h: Entry, refunds: seq<RefundRow>)
    ensures OnlyFalls(p.s, PayRefunds(p, h, refunds).s)
  {
    if refunds != [] {
      var n := |refunds| - 1;
      var q := PayRefunds(p, h, refunds[..n]);
      RefundsOnlyLower(p, h, refunds[..n]);
      PostOnlyLowers(q.s, RefundRequest(h, refunds[n].id, Min(refunds[n].amount, Max(q.remaining, 0))));
      OnlyFallsTwice(p.s, q.s, PayRefund(q, h, refunds[n]).s);
    }
  }

  lemma {:induction false} OnlyFallsTwice(a: State, b: State, c: State)
    requires OnlyFalls(a, b) && OnlyFalls(b, c)
    ensures OnlyFalls(a, c)
  {
  }

  lemma {:induction false} ScriptOnlyLowers(s: State, rows: seq<HoldRow>)
    ensures OnlyFalls(s, RunOnce(s, rows).0)
  {
    if rows != [] {
      var before, row := RunOnce(s, rows[..|rows| - 1]), rows[|rows| - 1];
      ScriptOnlyLowers(s, rows[..|rows| - 1]);
      if before.1 && IsHold(before.0, row.hold) {
        var h, begun := before.0.entries[row.hold], Begin(before.0, row);
        var q := PayRefunds(begun, h, row.refunds);
        RefundsOnlyLower(begun, h, row.refunds);
        PostOnlyLowers(q.s, ReleaseRest(h, row.hold, q.remaining));
        OnlyFallsTwice(before.0, q.s, ProcessHold(before.0, row).s);
        OnlyFallsTwice(s, before.0, ProcessHold(before.0, row).s);
      }
    }
  }

  lemma {:induction false} MixedOnlyLowers(s: State, step: Mixed)
    ensures OnlyFalls(s, MixedStep(s, step))
  {
    match step
    case Take(m, p, amount, until) => PostOnlyLowers(s, HoldRequest(m, p, amount, INR, until));
    case ReleaseOne(h) =>
      if IsHold(s, h) { PostOnlyLowers(s, ReleaseRequest(s.entries[h].merchant, h, s.entries[h].credit)); }
    case Script(rows) => ScriptOnlyLowers(s, rows);
  }

  /** No new hold is made by a release or by the script. */
  lemma {:induction false} RefundsAddNoHold(p: Progress, h: Entry, refunds: seq<RefundRow>)
    ensures p.s.entries <= PayRefunds(p, h, refunds).s.entries
    ensures forall i: nat :: IsHold(PayRefunds(p, h, refunds).s, i) ==> IsHold(p.s, i)
  {
    if refunds != [] { RefundsAddNoHold(p, h, refunds[..|refunds| - 1]); }
  }

  lemma {:induction false} ScriptAddsNoHold(s: State, rows: seq<HoldRow>)
    ensures s.entries <= RunOnce(s, rows).0.entries
    ensures forall i: nat :: IsHold(RunOnce(s, rows).0, i) ==> IsHold(s, i)
  {
    if rows != [] {
      var before, row := RunOnce(s, rows[..|rows| - 1]), rows[|rows| - 1];
      ScriptAddsNoHold(s, rows[..|rows| - 1]);
      if before.1 && IsHold(before.0, row.hold) {
        RefundsAddNoHold(Begin(before.0, row), before.0.entries[row.hold], row.refunds);
      }
    }
  }

  /** From a sound ledger of rupee holds: a step keeps it solvent exactly if it is clean, and then sound. */
  lemma {:induction false} MixedStepIff(s: State, step: Mixed)
    requires Sound(s) && Rupees(s) && DebitsSigned(s) && Fits(s, step)
    ensures Clean(s, step) ==> Sound(MixedStep(s, step)) && Rupees(MixedStep(s, step))
    ensures !Clean(s, step) ==> !Solvent(MixedStep(s, step))
  {
    match step
    case Take(m, p, amount, until) => HoldKeepsAgreement(s, HoldRequest(m, p, amount, INR, until));
    case Script(rows) =>
      RunIsSound(s, rows);
      ScriptAddsNoHold(s, rows);
    case ReleaseOne(h) =>
      if IsHold(s, h) { ReleaseStepIff(s, h); }
  }

  lemma {:induction false} ReleaseStepIff(s: State, h: nat)
    requires Sound(s) && Rupees(s) && DebitsSigned(s) && IsHold(s, h)
    ensures Clean(s, ReleaseOne(h)) ==> Sound(ReleaseFull(s, h)) && Rupees(ReleaseFull(s, h))
    ensures !Clean(s, ReleaseOne(h)) ==> !Solvent(ReleaseFull(s, h))
  {
    var e := s.entries[h];
    var r := ReleaseRequest(e.merchant, h, e.credit);
    if Check(s, r).Posted? {
      ReleaseKeepsAgreement(s, r);
      FullReleaseIsWithinCreditIff(s, h);
      DebitsAddUp(s.entries, e.merchant, e.payment);
    }
  }

  ghost predicate AllFit(steps: seq<Mixed>) {
    steps == [] || (AllFit(steps[..|steps| - 1]) && Fits(MixedRun(steps[..|steps| - 1]), steps[|steps| - 1]))
  }

  predicate AllClean(steps: seq<Mixed>) {
    steps == [] || (AllClean(steps[..|steps| - 1]) && Clean(MixedRun(steps[..|steps| - 1]), steps[|steps| - 1]))
  }

  /** Over every run of holds, full releases and script runs: the ledger ends without an overdrawn hold
      exactly when every release that was posted found its hold without debits. */
  lemma {:induction false} NeverOverdrawnIff(steps: seq<Mixed>)
    requires AllFit(steps)
    ensures DebitsSigned(MixedRun(steps)) && (AllClean(steps) ==> Sound(MixedRun(steps)) && Rupees(MixedRun(steps)))
    ensures Solvent(MixedRun(steps)) <==> AllClean(steps)
  {
    if steps != [] {
      var n := |steps| - 1;
      var front, s := steps[..n], MixedRun(steps[..n]);
      NeverOverdrawnIff(front);
      MixedOnlyLowers(s, steps[n]);
      if AllClean(front) {
        MixedStepIff(s, steps[n]);
      } else {
        var i: nat :| Outstanding(s, i) < 0;
        assert i < |s.entries| && Outstanding(MixedRun(steps), i) < 0;
      }
    }
  }
}
