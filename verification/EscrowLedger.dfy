/** The escrow ledger: one posting function, holds, cron releases and settlement releases.

    Money is counted in ten-thousandths of the currency unit, the ledger's precision. */
module EscrowLedger {

  import opened Basics

  datatype Kind = Hold | Release | Refund | Chargeback | Expired | Adjustment

  datatype Key = HoldKey(payment: nat) | ReleaseKey(hold: nat) | RefundKey(refund: nat)

  datatype Entry = Entry(merchant: nat, kind: Kind, debit: int, credit: int, balanceAfter: int, currency: string,
                         payment: Option<nat>, hold: Option<nat>, until: int)

  /** Arguments of the posting function; `hold` is the entry a release points back to. */
  datatype Request = Request(merchant: nat, kind: Kind, debit: int, credit: int, currency: string,
                             payment: Option<nat>, hold: Option<nat>, until: int, key: Option<Key>)

  datatype Outcome = Posted(id: nat) | Existing(id: nat) | Refused

  /** Append-only entries, the balance row per merchant and currency, the idempotency table and the
      single-release table, which keeps the amount released for a hold. */
  datatype State = State(entries: seq<Entry>, balances: map<(nat, string), int>, keys: map<(nat, Key), nat>,
                         links: map<(nat, nat), int>)

  const EMPTY := State([], map[], map[], map[])

  const INR := "INR"

  function Balance(s: State, m: nat, c: string): int {
    if (m, c) in s.balances then s.balances[(m, c)] else 0
  }

  predicate IsHold(s: State, i: nat) { i < |s.entries| && s.entries[i].kind == Hold }

  // ----- the posting function -----

  function Check(s: State, r: Request): Outcome {
    if r.debit < 0 || r.credit < 0 || (r.debit > 0 <==> r.credit > 0) then Refused
    else if r.kind == Hold && r.credit <= 0 then Refused
    else if r.kind == Release && (r.debit <= 0 || r.hold.None?) then Refused
    else if r.key.Some? && (r.merchant, r.key.value) in s.keys then Existing(s.keys[(r.merchant, r.key.value)])
    else if Balance(s, r.merchant, r.currency) + r.credit - r.debit < 0 then Refused
    else if r.kind == Release && !(IsHold(s, r.hold.value) && s.entries[r.hold.value].merchant == r.merchant) then Refused
    else if r.kind == Release && (r.merchant, r.hold.value) in s.links then Refused
    else Posted(|s.entries|)
  }

  function Post(s: State, r: Request): State {
    if !Check(s, r).Posted? then s
    else
      var after := Balance(s, r.merchant, r.currency) + r.credit - r.debit;
      State(s.entries + [Entry(r.merchant, r.kind, r.debit, r.credit, after, r.currency, r.payment, r.hold, r.until)],
            s.balances[(r.merchant, r.currency) := after],
            if r.key.Some? then s.keys[(r.merchant, r.key.value) := |s.entries|] else s.keys,
            if r.kind == Release then s.links[(r.merchant, r.hold.value) := r.debit] else s.links)
  }

  function HoldRequest(m: nat, payment: nat, amount: int, currency: string, until: int): Request {
    Request(m, Hold, 0, amount, currency, Some(payment), None, until, Some(HoldKey(payment)))
  }

  /** `release_hold` passes no currency, so the posting function's default applies. */
  function ReleaseRequest(m: nat, hold: nat, amount: int): Request {
    Request(m, Release, amount, 0, INR, None, Some(hold), 0, Some(ReleaseKey(hold)))
  }

  /** Cron and settlement release a hold by its full credit. */
  function ReleaseFull(s: State, h: nat): State {
    if IsHold(s, h) then Post(s, ReleaseRequest(s.entries[h].merchant, h, s.entries[h].credit)) else s
  }

  function ReleaseEach(s: State, due: seq<nat>): State {
    if due == [] then s else ReleaseFull(ReleaseEach(s, due[..|due| - 1]), due[|due| - 1])
  }

  /** The latest hold of a payment, which settlement looks up. */
  function FindHold(entries: seq<Entry>, m: nat, payment: nat): Option<nat> {
    if entries == [] then None
    else
      var n := |entries| - 1;
      if entries[n].kind == Hold && entries[n].merchant == m && entries[n].payment == Some(payment) then Some(n)
      else FindHold(entries[..n], m, payment)
  }

  lemma {:induction false} FindHoldFinds(entries: seq<Entry>, m: nat, payment: nat)
    ensures var f := FindHold(entries, m, payment);
            f.Some? ==> f.value < |entries| && entries[f.value].kind == Hold && entries[f.value].merchant == m
                        && entries[f.value].payment == Some(payment)
  {
    if entries != [] {
      FindHoldFinds(entries[..|entries| - 1], m, payment);
    }
  }

  /** Rows of a settlement batch: payment and gross amount. */
  function SettleEach(s: State, m: nat, rows: seq<(nat, int)>): State {
    if rows == [] then s
    else
      var before := SettleEach(s, m, rows[..|rows| - 1]);
      var row := rows[|rows| - 1];
      var f := FindHold(before.entries, m, row.0);
      if row.1 <= 0 || f.None? then before else ReleaseFull(before, f.value)
  }

  // ----- the service -----

  class EscrowService {
    var entries: seq<Entry>
    var balances: map<(nat, string), int>
    var keys: map<(nat, Key), nat>
    var links: map<(nat, nat), int>

    function Tables(): State
      reads this
    {
      State(entries, balances, keys, links)
    }

    constructor ()
      ensures Tables() == EMPTY
    {
      entries, balances, keys, links := [], map[], map[], map[];
    }

    method PostEntry(r: Request) returns (outcome: Outcome)
      modifies this
      ensures outcome == Check(old(Tables()), r)
      ensures Tables() == Post(old(Tables()), r)
    {
      if r.debit < 0 || r.credit < 0 || (r.debit > 0 <==> r.credit > 0) {
        return Refused;
      }
      if r.kind == Hold && r.credit <= 0 {
        return Refused;
      }
      if r.kind == Release && (r.debit <= 0 || r.hold.None?) {
        return Refused;
      }
      if r.key.Some? && (r.merchant, r.key.value) in keys {
        return Existing(keys[(r.merchant, r.key.value)]);
      }
      var previous := if (r.merchant, r.currency) in balances then balances[(r.merchant, r.currency)] else 0;
      var balance := previous + r.credit - r.debit;
      if balance < 0 {
        return Refused;
      }
      if r.kind == Release {
        var h := r.hold.value;
        if h >= |entries| || entries[h].kind != Hold || entries[h].merchant != r.merchant || (r.merchant, h) in links {
          return Refused;
        }
        links := links[(r.merchant, h) := r.debit];
      }
      if r.key.Some? {
        keys := keys[(r.merchant, r.key.value) := |entries|];
      }
      balances := balances[(r.merchant, r.currency) := balance];
      outcome := Posted(|entries|);
      entries := entries + [Entry(r.merchant, r.kind, r.debit, r.credit, balance, r.currency, r.payment, r.hold, r.until)];
    }

    method HoldForPayment(m: nat, payment: nat, amount: int, currency: string, now: int, holdDays: int)
        returns (outcome: Outcome)
      modifies this
      ensures outcome == Check(old(Tables()), HoldRequest(m, payment, amount, currency, now + holdDays))
      ensures Tables() == Post(old(Tables()), HoldRequest(m, payment, amount, currency, now + holdDays))
    {
      outcome := PostEntry(HoldRequest(m, payment, amount, currency, now + holdDays));
    }

    method ReleaseHold(m: nat, hold: nat, amount: int) returns (outcome: Outcome)
      modifies this
      ensures outcome == Check(old(Tables()), ReleaseRequest(m, hold, amount))
      ensures Tables() == Post(old(Tables()), ReleaseRequest(m, hold, amount))
    {
      outcome := PostEntry(ReleaseRequest(m, hold, amount));
    }

    /** `due` is the answer of the query for elapsed, unreleased holds. One failure does not stop the
        rest; in a ledger reached by the service itself none can happen. */
    method ReleaseDue(due: seq<nat>) returns (released: nat, failed: nat)
      requires forall h :: h in due ==> IsHold(Tables(), h)
      modifies this
      ensures Tables() == ReleaseEach(old(Tables()), due)
      ensures released + failed == |due|
      ensures Settled(old(Tables())) ==> failed == 0
    {
      released, failed := 0, 0;
      ghost var s := Tables();
      for i := 0 to |due|
        invariant Tables() == ReleaseEach(s, due[..i])
        invariant s.entries <= entries
        invariant released + failed == i
        invariant Settled(s) ==> Settled(Tables()) && failed == 0
      {
        assert due[..i + 1][..i] == due[..i];
        var h := due[i];
        assert h in due && entries[h] == s.entries[h];
        ReleaseOutcome(Tables(), h);
        var outcome := ReleaseHold(entries[h].merchant, h, entries[h].credit);
        if outcome == Refused {
          failed := failed + 1;
        } else {
          released := released + 1;
        }
      }
      assert due[..|due|] == due;
    }

    /** Rows without a positive gross amount or without a hold are skipped; failures are logged. */
    method ReleaseHoldsForSettlement(m: nat, rows: seq<(nat, int)>)
      modifies this
      ensures Tables() == SettleEach(old(Tables()), m, rows)
    {
      ghost var s := Tables();
      for i := 0 to |rows|
        invariant Tables() == SettleEach(s, m, rows[..i])
      {
        assert rows[..i + 1][..i] == rows[..i];
        var payment, gross := rows[i].0, rows[i].1;
        if gross > 0 {
          FindHoldFinds(entries, m, payment);
          var hold := FindHold(entries, m, payment);
          if hold.Some? {
            var outcome := ReleaseHold(m, hold.value, entries[hold.value].credit);
          }
        }
      }
      assert rows[..|rows|] == rows;
    }
  }

  // ----- what is still held -----

  function DebitOf(e: Entry, m: nat, payment: Option<nat>): int {
    if (e.kind == Refund || e.kind == Chargeback || e.kind == Expired) && e.merchant == m && e.payment == payment
    then e.debit else 0
  }

  /** Debits posted against the payment of a hold before any release. */
  function DebitedFor(entries: seq<Entry>, m: nat, payment: Option<nat>): int {
    if entries == [] then 0
    else
      DebitedFor(entries[..|entries| - 1], m, payment) + DebitOf(entries[|entries| - 1], m, payment)
  }

  function ReleasedFor(s: State, m: nat, h: nat): int { if (m, h) in s.links then s.links[(m, h)] else 0 }

  /** What is left of hold `i`: its credit less everything debited against it. */
  function Outstanding(s: State, i: nat): int {
    if !IsHold(s, i) then 0
    else
      var e := s.entries[i];
      e.credit - DebitedFor(s.entries, e.merchant, e.payment) - ReleasedFor(s, e.merchant, i)
  }

  function OutstandingTotal(s: State, m: nat, c: string, n: nat): int {
    if n == 0 then 0
    else
      OutstandingTotal(s, m, c, n - 1)
      + if IsHold(s, n - 1) && s.entries[n - 1].merchant == m && s.entries[n - 1].currency == c
          then Outstanding(s, n - 1) else 0
  }

  /** The open-holds query of `get_balance`. */
  function OpenHolds(s: State, m: nat, c: string, n: nat): int {
    if n == 0 then 0
    else
      OpenHolds(s, m, c, n - 1)
      + if IsHold(s, n - 1) && s.entries[n - 1].merchant == m && s.entries[n - 1].currency == c && (m, n - 1) !in s.links
        then s.entries[n - 1].credit else 0
  }

  predicate SamePayment(a: Entry, b: Entry) { a.merchant == b.merchant && a.payment == b.payment }

  predicate ProperHold(s: State, e: Entry) {
    e.credit > 0 && e.payment.Some? && (e.merchant, HoldKey(e.payment.value)) in s.keys
  }

  /** Holds are positive credits, one per payment and recorded under the payment's key; debits
      against a payment exist only beside its hold; links and release keys go together. */
  ghost predicate WellFormed(s: State) {
    && (forall i: nat :: IsHold(s, i) ==> ProperHold(s, s.entries[i]))
    && (forall i: nat, j: nat :: IsHold(s, i) && IsHold(s, j) && SamePayment(s.entries[i], s.entries[j]) ==> i == j)
    && (forall m: nat, p: nat :: (m, HoldKey(p)) !in s.keys ==> DebitedFor(s.entries, m, Some(p)) == 0)
    && (forall m: nat, h: nat :: (m, h) in s.links ==> IsHold(s, h) && s.entries[h].merchant == m)
    && (forall m: nat, h: nat :: (m, ReleaseKey(h)) in s.keys <==> (m, h) in s.links)
  }

  ghost predicate Agrees(s: State) {
    forall m: nat, c :: Balance(s, m, c) == OutstandingTotal(s, m, c, |s.entries|)
  }

  /** No hold is overdrawn. */
  ghost predicate Solvent(s: State) { forall i: nat :: Outstanding(s, i) >= 0 }

  /** Nothing but holds and full releases has happened. */
  ghost predicate HoldsAndReleasesOnly(s: State) {
    && (forall m: nat, p :: DebitedFor(s.entries, m, p) == 0)
    && (forall m: nat, h: nat :: (m, h) in s.links && IsHold(s, h) ==> s.links[(m, h)] == s.entries[h].credit)
  }

  ghost predicate Rupees(s: State) { forall i: nat :: IsHold(s, i) ==> s.entries[i].currency == INR }

  ghost predicate Settled(s: State) { WellFormed(s) && Agrees(s) && HoldsAndReleasesOnly(s) && Rupees(s) }

  lemma SettledIsSolvent(s: State)
    requires Settled(s)
    ensures Solvent(s)
  {
    forall i: nat ensures Outstanding(s, i) >= 0 {}
  }

  lemma {:induction false} TotalUnchanged(s: State, s': State, m: nat, c: string, n: nat)
    requires n <= |s.entries| && s.entries <= s'.entries
    requires forall i :: 0 <= i < n && IsHold(s, i) && s.entries[i].merchant == m ==> Outstanding(s', i) == Outstanding(s, i)
    ensures OutstandingTotal(s', m, c, n) == OutstandingTotal(s, m, c, n)
  {
    if n > 0 { TotalUnchanged(s, s', m, c, n - 1); }
  }

  /** Debiting one hold lowers the total of its merchant and currency by that much. */
  lemma {:induction false} TotalDrops(s: State, s': State, h: nat, a: int, m: nat, c: string, n: nat)
    requires n <= |s.entries| && s.entries <= s'.entries && IsHold(s, h)
    requires forall i :: 0 <= i < n && i != h && IsHold(s, i) ==> Outstanding(s', i) == Outstanding(s, i)
    requires Outstanding(s', h) == Outstanding(s, h) - a
    ensures OutstandingTotal(s', m, c, n) == OutstandingTotal(s, m, c, n)
            - if h < n && s.entries[h].merchant == m && s.entries[h].currency == c then a else 0
  {
    if n > 0 { TotalDrops(s, s', h, a, m, c, n - 1); }
  }

  lemma {:induction false} TotalCovers(s: State, h: nat, n: nat)
    requires Solvent(s) && IsHold(s, h) && n <= |s.entries|
    ensures OutstandingTotal(s, s.entries[h].merchant, s.entries[h].currency, n) >= if h < n then Outstanding(s, h) else 0
  {
    if n > 0 {
      TotalCovers(s, h, n - 1);
      assert Outstanding(s, n - 1) >= 0;
    }
  }

  lemma DebitedAppend(entries: seq<Entry>, e: Entry)
    ensures forall m: nat, p :: DebitedFor(entries + [e], m, p) == DebitedFor(entries, m, p) + DebitOf(e, m, p)
  {
    assert (entries + [e])[..|entries|] == entries;
  }

  lemma {:induction false} HoldIsWellFormed(s: State, r: Request)
    requires WellFormed(s) && HoldsAndReleasesOnly(s) && Check(s, r).Posted?
    requires r.kind == Hold && r.payment.Some? && r.key == Some(HoldKey(r.payment.value))
    ensures WellFormed(Post(s, r))
    ensures HoldsAndReleasesOnly(Post(s, r))
  {
    var s', n := Post(s, r), |s.entries|;
    DebitedAppend(s.entries, s'.entries[n]);
    assert forall i: nat :: i < n ==> (IsHold(s', i) <==> IsHold(s, i)) && s'.entries[i] == s.entries[i];
    assert forall i: nat :: IsHold(s', i) ==> i <= n;
    assert forall m: nat :: (m, n) !in s.links by { assert !IsHold(s, n); }
    assert s'.links == s.links && s'.entries[n].payment == r.payment && s'.entries[n].credit == r.credit;
  }

  lemma HoldKeepsAgreement(s: State, r: Request)
    requires WellFormed(s) && Agrees(s)
    requires r.kind == Hold && r.payment.Some? && r.key == Some(HoldKey(r.payment.value))
    ensures WellFormed(Post(s, r)) && Agrees(Post(s, r))
    ensures HoldsAndReleasesOnly(s) ==> HoldsAndReleasesOnly(Post(s, r))
    ensures Solvent(s) ==> Solvent(Post(s, r))
  {
    if Check(s, r).Posted? {
      var s', n := Post(s, r), |s.entries|;
      DebitedAppend(s.entries, s'.entries[n]);
      assert forall i: nat :: i < n ==> (IsHold(s', i) <==> IsHold(s, i)) && Outstanding(s', i) == Outstanding(s, i);
      assert (r.merchant, n) !in s.links by { assert !IsHold(s, n); }
      assert Outstanding(s', n) == r.credit;
      forall m: nat, c ensures Balance(s', m, c) == OutstandingTotal(s', m, c, n + 1) {
        TotalUnchanged(s, s', m, c, n);
      }
    }
  }

  /** A posted release in the currency of its hold. */
  lemma ReleaseKeepsAgreement(s: State, r: Request)
    requires WellFormed(s) && Agrees(s)
    requires r.kind == Release && r.hold.Some? && r.key == Some(ReleaseKey(r.hold.value))
    requires IsHold(s, r.hold.value) ==> r.currency == s.entries[r.hold.value].currency
    ensures WellFormed(Post(s, r)) && Agrees(Post(s, r))
    ensures Solvent(s) && IsHold(s, r.hold.value) && r.debit <= Outstanding(s, r.hold.value) ==> Solvent(Post(s, r))
  {
    if Check(s, r).Posted? {
      var s', n, h := Post(s, r), |s.entries|, r.hold.value;
      DebitedAppend(s.entries, s'.entries[n]);
      assert forall i: nat :: i != h ==> Outstanding(s', i) == Outstanding(s, i);
      assert Outstanding(s', h) == Outstanding(s, h) - r.debit;
      forall m: nat, c ensures Balance(s', m, c) == OutstandingTotal(s', m, c, n + 1) {
        TotalDrops(s, s', h, r.debit, m, c, n);
      }
    }
  }

  /** Releasing a hold of a ledger in which only holds and full releases happened cannot be refused. */
  lemma ReleaseSucceeds(s: State, h: nat)
    requires Settled(s) && IsHold(s, h)
    ensures !Check(s, ReleaseRequest(s.entries[h].merchant, h, s.entries[h].credit)).Refused?
    ensures Settled(ReleaseFull(s, h))
    ensures (s.entries[h].merchant, h) in ReleaseFull(s, h).links
  {
    var r := ReleaseRequest(s.entries[h].merchant, h, s.entries[h].credit);
    SettledIsSolvent(s);
    TotalCovers(s, h, |s.entries|);
    ReleaseKeepsAgreement(s, r);
    if Check(s, r).Posted? {
      DebitedAppend(s.entries, Post(s, r).entries[|s.entries|]);
    }
  }

  lemma ReleaseOutcome(s: State, h: nat)
    requires IsHold(s, h)
    ensures s.entries <= ReleaseFull(s, h).entries
    ensures Settled(s) ==> Settled(ReleaseFull(s, h))
    ensures Settled(s) ==> !Check(s, ReleaseRequest(s.entries[h].merchant, h, s.entries[h].credit)).Refused?
  {
    if Settled(s) { ReleaseSucceeds(s, h); }
  }

  // ----- runs -----

  datatype Op =
    | TakeHold(merchant: nat, payment: nat, amount: int, currency: string, until: int)
    | Cron(due: seq<nat>)
    | Settle(merchant: nat, rows: seq<(nat, int)>)

  function Step(s: State, op: Op): State {
    match op
    case TakeHold(m, p, amount, c, until) => Post(s, HoldRequest(m, p, amount, c, until))
    case Cron(due) => ReleaseEach(s, due)
    case Settle(m, rows) => SettleEach(s, m, rows)
  }

  function Run(ops: seq<Op>): State {
    if ops == [] then EMPTY else Step(Run(ops[..|ops| - 1]), ops[|ops| - 1])
  }

  lemma ReleaseFullKeeps(s: State, h: nat)
    requires Settled(s)
    ensures Settled(ReleaseFull(s, h))
  {
    if IsHold(s, h) { ReleaseSucceeds(s, h); }
  }

  lemma {:induction false} ReleaseEachKeeps(s: State, due: seq<nat>)
    requires Settled(s)
    ensures Settled(ReleaseEach(s, due))
  {
    if due != [] {
      ReleaseEachKeeps(s, due[..|due| - 1]);
      ReleaseFullKeeps(ReleaseEach(s, due[..|due| - 1]), due[|due| - 1]);
    }
  }

  lemma {:induction false} SettleEachKeeps(s: State, m: nat, rows: seq<(nat, int)>)
    requires Settled(s)
    ensures Settled(SettleEach(s, m, rows))
  {
    if rows != [] {
      SettleEachKeeps(s, m, rows[..|rows| - 1]);
      var before := SettleEach(s, m, rows[..|rows| - 1]);
      var f := FindHold(before.entries, m, rows[|rows| - 1].0);
      if f.Some? { ReleaseFullKeeps(before, f.value); }
    }
  }

  /** Every hold of the run is taken in rupees. */
  ghost predicate InRupees(ops: seq<Op>) { forall i :: 0 <= i < |ops| && ops[i].TakeHold? ==> ops[i].currency == INR }

  lemma {:induction false} RunIsSettled(ops: seq<Op>)
    requires InRupees(ops)
    ensures Settled(Run(ops))
  {
    if ops != [] {
      var s, op := Run(ops[..|ops| - 1]), ops[|ops| - 1];
      RunIsSettled(ops[..|ops| - 1]);
      match op
      case TakeHold(m, p, amount, c, until) => HoldKeepsAgreement(s, HoldRequest(m, p, amount, c, until));
      case Cron(due) => ReleaseEachKeeps(s, due);
      case Settle(m, rows) => SettleEachKeeps(s, m, rows);
    }
  }

  lemma {:induction false} OpenIsOutstanding(s: State, m: nat, c: string, n: nat)
    requires WellFormed(s) && HoldsAndReleasesOnly(s) && n <= |s.entries|
    ensures OpenHolds(s, m, c, n) == OutstandingTotal(s, m, c, n) >= 0
  {
    if n > 0 { OpenIsOutstanding(s, m, c, n - 1); }
  }

  /** Holds in rupees, cron releases and settlement releases, in any order and with repeats: the balance
      row equals the sum of the unreleased holds and is never negative. */
  lemma {:induction false} HeldBalanceIsOpenHolds(ops: seq<Op>, m: nat, c: string)
    requires InRupees(ops)
    ensures var s := Run(ops);
            Balance(s, m, c) == OpenHolds(s, m, c, |s.entries|) && Balance(s, m, c) >= 0
  {
    RunIsSettled(ops);
    OpenIsOutstanding(Run(ops), m, c, |Run(ops).entries|);
  }

  // ----- holds in any currency -----

  predicate IsForeign(s: State, i: nat, m: nat, only: Option<string>) {
    && IsHold(s, i) && s.entries[i].merchant == m && s.entries[i].currency != INR
    && (only.None? || s.entries[i].currency == only.value)
  }

  /** What was released of a merchant's holds that are not in rupees, of one currency or of all. */
  function ForeignReleased(s: State, m: nat, only: Option<string>, n: nat): int {
    if n == 0 then 0
    else ForeignReleased(s, m, only, n - 1) + if IsForeign(s, n - 1, m, only) then ReleasedFor(s, m, n - 1) else 0
  }

  /** By how much a balance row strays from what is outstanding: every release is debited in rupees. */
  function Astray(s: State, m: nat, c: string): int {
    if c == INR then -ForeignReleased(s, m, None, |s.entries|) else ForeignReleased(s, m, Some(c), |s.entries|)
  }

  ghost predicate Accounted(s: State) {
    && WellFormed(s) && HoldsAndReleasesOnly(s)
    && (forall m: nat, c :: Balance(s, m, c) == OutstandingTotal(s, m, c, |s.entries|) + Astray(s, m, c))
    && (forall m: nat, c :: Balance(s, m, c) >= 0)
  }

  lemma {:induction false} ForeignUnchanged(s: State, s': State, m: nat, only: Option<string>, n: nat)
    requires n <= |s.entries| && s.entries <= s'.entries
    requires forall i: nat :: i < n ==> ReleasedFor(s', m, i) == ReleasedFor(s, m, i)
    ensures ForeignReleased(s', m, only, n) == ForeignReleased(s, m, only, n)
  {
    if n > 0 { ForeignUnchanged(s, s', m, only, n - 1); }
  }

  lemma {:induction false} ForeignGrows(s: State, s': State, h: nat, a: int, m: nat, only: Option<string>, n: nat)
    requires n <= |s.entries| && s.entries <= s'.entries && IsHold(s, h)
    requires forall i: nat :: i < n && (i != h || m != s.entries[h].merchant) ==> ReleasedFor(s', m, i) == ReleasedFor(s, m, i)
    requires m == s.entries[h].merchant ==> ReleasedFor(s', m, h) == ReleasedFor(s, m, h) + a
    ensures ForeignReleased(s', m, only, n)
        == ForeignReleased(s, m, only, n) + if h < n && IsForeign(s, h, m, only) then a else 0
  {
    if n > 0 { ForeignGrows(s, s', h, a, m, only, n - 1); }
  }

  lemma {:induction false} HoldBalance(s: State, r: Request, m: nat, c: string)
    requires r.kind == Hold && Check(s, r).Posted?
    requires DebitedFor(s.entries, r.merchant, r.payment) == 0 && forall x: nat :: (x, |s.entries|) !in s.links
    requires Balance(s, m, c) == OutstandingTotal(s, m, c, |s.entries|) + Astray(s, m, c) && Balance(s, m, c) >= 0
    ensures var s' := Post(s, r);
            && Balance(s', m, c) == OutstandingTotal(s', m, c, |s'.entries|) + Astray(s', m, c)
            && Balance(s', m, c) >= 0
  {
    var s', n := Post(s, r), |s.entries|;
    DebitedAppend(s.entries, s'.entries[n]);
    assert forall i: nat :: i < n ==> Outstanding(s', i) == Outstanding(s, i);
    TotalUnchanged(s, s', m, c, n);
    ForeignUnchanged(s, s', m, None, n);
    ForeignUnchanged(s, s', m, Some(c), n);
    assert Outstanding(s', n) == r.credit;
    assert ReleasedFor(s', m, n) == 0;
  }

  lemma {:induction false} HoldKeepsAccounted(s: State, r: Request)
    requires Accounted(s)
    requires r.kind == Hold && r.payment.Some? && r.key == Some(HoldKey(r.payment.value))
    ensures Accounted(Post(s, r))
  {
    if Check(s, r).Posted? {
      var s' := Post(s, r);
      HoldIsWellFormed(s, r);
      assert forall x: nat :: (x, |s.entries|) !in s.links by { assert !IsHold(s, |s.entries|); }
      forall m: nat, c
        ensures Balance(s', m, c) == OutstandingTotal(s', m, c, |s'.entries|) + Astray(s', m, c) && Balance(s', m, c) >= 0
      {
        HoldBalance(s, r, m, c);
      }
    }
  }

  lemma {:induction false} ReleaseIsWellFormed(s: State, h: nat)
    requires WellFormed(s) && HoldsAndReleasesOnly(s) && IsHold(s, h)
    ensures WellFormed(ReleaseFull(s, h)) && HoldsAndReleasesOnly(ReleaseFull(s, h))
  {
    if Check(s, ReleaseRequest(s.entries[h].merchant, h, s.entries[h].credit)).Posted? {
      DebitedAppend(s.entries, ReleaseFull(s, h).entries[|s.entries|]);
    }
  }

  lemma {:induction false} ReleaseBalance(s: State, h: nat, m: nat, c: string)
    requires Accounted(s) && IsHold(s, h)
    requires Check(s, ReleaseRequest(s.entries[h].merchant, h, s.entries[h].credit)).Posted?
    ensures var s' := ReleaseFull(s, h);
            && Balance(s', m, c) == OutstandingTotal(s', m, c, |s'.entries|) + Astray(s', m, c)
            && Balance(s', m, c) >= 0
  {
    var s', n, e := ReleaseFull(s, h), |s.entries|, s.entries[h];
    DebitedAppend(s.entries, s'.entries[n]);
    assert forall i: nat :: i != h ==> Outstanding(s', i) == Outstanding(s, i);
    assert Outstanding(s', h) == Outstanding(s, h) - e.credit;
    TotalDrops(s, s', h, e.credit, m, c, n);
    ForeignGrows(s, s', h, e.credit, m, None, n);
    ForeignGrows(s, s', h, e.credit, m, Some(c), n);
  }

  lemma {:induction false} ReleaseKeepsAccounted(s: State, h: nat)
    requires Accounted(s)
    ensures Accounted(ReleaseFull(s, h))
  {
    if IsHold(s, h) && Check(s, ReleaseRequest(s.entries[h].merchant, h, s.entries[h].credit)).Posted? {
      var s' := ReleaseFull(s, h);
      ReleaseIsWellFormed(s, h);
      forall m: nat, c
        ensures Balance(s', m, c) == OutstandingTotal(s', m, c, |s'.entries|) + Astray(s', m, c) && Balance(s', m, c) >= 0
      {
        ReleaseBalance(s, h, m, c);
      }
    }
  }

  lemma {:induction false} ReleaseEachAccounted(s: State, due: seq<nat>)
    requires Accounted(s)
    ensures Accounted(ReleaseEach(s, due))
  {
    if due != [] {
      ReleaseEachAccounted(s, due[..|due| - 1]);
      ReleaseKeepsAccounted(ReleaseEach(s, due[..|due| - 1]), due[|due| - 1]);
    }
  }

  lemma {:induction false} SettleEachAccounted(s: State, m: nat, rows: seq<(nat, int)>)
    requires Accounted(s)
    ensures Accounted(SettleEach(s, m, rows))
  {
    if rows != [] {
      SettleEachAccounted(s, m, rows[..|rows| - 1]);
      var before := SettleEach(s, m, rows[..|rows| - 1]);
      var f := FindHold(before.entries, m, rows[|rows| - 1].0);
      if f.Some? { ReleaseKeepsAccounted(before, f.value); }
    }
  }

  /** For holds in any currency: every balance row, over every run, up to what releases debited in the
      wrong currency. */
  lemma {:induction false} RunIsAccounted(ops: seq<Op>)
    ensures Accounted(Run(ops))
  {
    if ops != [] {
      var s, op := Run(ops[..|ops| - 1]), ops[|ops| - 1];
      RunIsAccounted(ops[..|ops| - 1]);
      match op
      case TakeHold(m, p, amount, c, until) => HoldKeepsAccounted(s, HoldRequest(m, p, amount, c, until));
      case Cron(due) => ReleaseEachAccounted(s, due);
      case Settle(m, rows) => SettleEachAccounted(s, m, rows);
    }
  }

  ghost predicate NoForeignRelease(s: State) {
    forall i: nat :: IsHold(s, i) && (s.entries[i].merchant, i) in s.links ==> s.entries[i].currency == INR
  }

  lemma {:induction false} ForeignIsPositive(s: State, m: nat, only: Option<string>, n: nat)
    requires WellFormed(s) && HoldsAndReleasesOnly(s)
    ensures ForeignReleased(s, m, only, n) >= 0
    ensures ForeignReleased(s, m, only, n) > 0 <==>
        exists i: nat :: i < n && IsForeign(s, i, m, only) && (m, i) in s.links
  {
    if n > 0 { ForeignIsPositive(s, m, only, n - 1); }
  }

  lemma {:induction false} AgreesIffNoForeignRelease(s: State)
    requires Accounted(s)
    ensures Agrees(s) <==> NoForeignRelease(s)
  {
    var n := |s.entries|;
    if NoForeignRelease(s) {
      forall m: nat, c ensures Balance(s, m, c) == OutstandingTotal(s, m, c, n) {
        ForeignIsPositive(s, m, None, n);
        ForeignIsPositive(s, m, Some(c), n);
      }
    } else {
      var i: nat :| IsHold(s, i) && (s.entries[i].merchant, i) in s.links && s.entries[i].currency != INR;
      var m := s.entries[i].merchant;
      ForeignIsPositive(s, m, None, n);
      assert IsForeign(s, i, m, None);
      assert Balance(s, m, INR) != OutstandingTotal(s, m, INR, n);
    }
  }

  /** In every run, with holds in any currency: no balance is negative, and all of them equal the sums of
      unreleased holds exactly when no hold that is not in rupees was released. */
  lemma {:induction false} HeldBalanceIsOpenHoldsIff(ops: seq<Op>)
    ensures var s := Run(ops);
            && (forall m: nat, c :: Balance(s, m, c) >= 0)
            && ((forall m: nat, c :: Balance(s, m, c) == OpenHolds(s, m, c, |s.entries|)) <==> NoForeignRelease(s))
  {
    var s := Run(ops);
    RunIsAccounted(ops);
    AgreesIffNoForeignRelease(s);
    forall m: nat, c ensures OpenHolds(s, m, c, |s.entries|) == OutstandingTotal(s, m, c, |s.entries|) {
      OpenIsOutstanding(s, m, c, |s.entries|);
    }
  }

  /** Release entries that point at a hold. */
  function ReleaseCount(entries: seq<Entry>, m: nat, h: nat): nat {
    if entries == [] then 0
    else
      var e := entries[|entries| - 1];
      ReleaseCount(entries[..|entries| - 1], m, h)
      + if e.kind == Release && e.merchant == m && e.hold == Some(h) then 1 else 0
  }

  ghost predicate SingleRelease(s: State) {
    forall m: nat, h: nat :: ReleaseCount(s.entries, m, h) == if (m, h) in s.links then 1 else 0
  }

  /** The contract of the single-release table, for every request whatsoever. */
  lemma PostKeepsSingleRelease(s: State, r: Request)
    requires SingleRelease(s)
    ensures SingleRelease(Post(s, r))
  {
    var s' := Post(s, r);
    if Check(s, r).Posted? {
      assert s'.entries[..|s.entries|] == s.entries;
    }
  }

  lemma {:induction false} ReleaseEachSingle(s: State, due: seq<nat>)
    requires SingleRelease(s)
    ensures SingleRelease(ReleaseEach(s, due))
  {
    if due != [] {
      var before, h := ReleaseEach(s, due[..|due| - 1]), due[|due| - 1];
      ReleaseEachSingle(s, due[..|due| - 1]);
      if IsHold(before, h) {
        PostKeepsSingleRelease(before, ReleaseRequest(before.entries[h].merchant, h, before.entries[h].credit));
      }
    }
  }

  lemma {:induction false} SettleEachSingle(s: State, m: nat, rows: seq<(nat, int)>)
    requires SingleRelease(s)
    ensures SingleRelease(SettleEach(s, m, rows))
  {
    if rows != [] {
      var before := SettleEach(s, m, rows[..|rows| - 1]);
      SettleEachSingle(s, m, rows[..|rows| - 1]);
      var f := FindHold(before.entries, m, rows[|rows| - 1].0);
      if f.Some? && IsHold(before, f.value) {
        PostKeepsSingleRelease(before,
          ReleaseRequest(before.entries[f.value].merchant, f.value, before.entries[f.value].credit));
      }
    }
  }

  /** In every such run a hold has at most one release entry. */
  lemma {:induction false} HoldsAreReleasedAtMostOnce(ops: seq<Op>)
    ensures SingleRelease(Run(ops))
  {
    if ops != [] {
      var s, op := Run(ops[..|ops| - 1]), ops[|ops| - 1];
      HoldsAreReleasedAtMostOnce(ops[..|ops| - 1]);
      match op
      case TakeHold(m, p, amount, c, until) => PostKeepsSingleRelease(s, HoldRequest(m, p, amount, c, until));
      case Cron(due) => ReleaseEachSingle(s, due);
      case Settle(m, rows) => SettleEachSingle(s, m, rows);
    }
  }

  /** In every ledger whatsoever, repeating a full release changes nothing. */
  lemma {:induction false} ReleaseTwiceIsOnce(s: State, h: nat)
    ensures ReleaseFull(ReleaseFull(s, h), h) == ReleaseFull(s, h)
  {
    if IsHold(s, h) {
      var r := ReleaseRequest(s.entries[h].merchant, h, s.entries[h].credit);
      assert Check(s, r).Posted? ==> Check(Post(s, r), r).Existing?;
    }
  }

  // ----- where the agreement ends -----

  /** `hold_for_payment` accepts a currency, `release_hold` does not pass one on. For a ledger in
      agreement, a posted release keeps every balance equal to what is outstanding exactly when the
      hold was taken in rupees. */
  lemma ReleaseAgreesIffRupees(s: State, h: nat)
    requires Agrees(s) && IsHold(s, h) && s.entries[h].payment.Some?
    requires Check(s, ReleaseRequest(s.entries[h].merchant, h, s.entries[h].credit)).Posted?
    ensures Agrees(ReleaseFull(s, h)) <==> s.entries[h].currency == INR
  {
    var e, n := s.entries[h], |s.entries|;
    var r := ReleaseRequest(e.merchant, h, e.credit);
    var s' := Post(s, r);
    DebitedAppend(s.entries, s'.entries[n]);
    assert forall i: nat :: i != h ==> Outstanding(s', i) == Outstanding(s, i);
    assert Outstanding(s', h) == Outstanding(s, h) - e.credit;
    forall m: nat, c
      ensures OutstandingTotal(s', m, c, n + 1)
          == OutstandingTotal(s, m, c, n) - if e.merchant == m && e.currency == c then e.credit else 0
      ensures Balance(s', m, c) == Balance(s, m, c) - if e.merchant == m && c == INR then e.credit else 0
    {
      TotalDrops(s, s', h, e.credit, m, c, n);
    }
    if e.currency != INR {
      assert Balance(s', e.merchant, INR) != OutstandingTotal(s', e.merchant, INR, n + 1);
    }
  }

  /** Cron and settlement release the full credit even if part of it was already debited, so such a
      release leaves the hold within its credit exactly when nothing was debited before. */
  lemma FullReleaseIsWithinCreditIff(s: State, h: nat)
    requires WellFormed(s) && Agrees(s) && IsHold(s, h)
    requires Check(s, ReleaseRequest(s.entries[h].merchant, h, s.entries[h].credit)).Posted?
    ensures Outstanding(ReleaseFull(s, h), h) >= 0
            <==> DebitedFor(s.entries, s.entries[h].merchant, s.entries[h].payment) <= 0
  {
    DebitedAppend(s.entries, ReleaseFull(s, h).entries[|s.entries|]);
  }

  /** The ledger after two holds of a hundred each, in two currencies. */
  lemma {:induction false} TwoHolds(m: nat, usd: string)
    requires usd != INR
    ensures var s := Run([TakeHold(m, 1, 100, usd, 0), TakeHold(m, 2, 100, INR, 0)]);
            && s.entries == [Entry(m, Hold, 0, 100, 100, usd, Some(1), None, 0),
                             Entry(m, Hold, 0, 100, 100, INR, Some(2), None, 0)]
            && s.balances == map[(m, usd) := 100, (m, INR) := 100] && s.links == map[]
            && s.keys == map[(m, HoldKey(1)) := 0, (m, HoldKey(2)) := 1]
  {
    var ops := [TakeHold(m, 1, 100, usd, 0), TakeHold(m, 2, 100, INR, 0)];
    assert ops[..0] == [] && ops[..2] == ops;
    RunTo(ops, 0);
    var s1 := Run(ops[..1]);
    assert s1 == Post(EMPTY, HoldRequest(m, 1, 100, usd, 0));
    assert s1.balances == map[(m, usd) := 100] && s1.keys == map[(m, HoldKey(1)) := 0];
    RunTo(ops, 1);
    assert Run(ops) == Post(s1, HoldRequest(m, 2, 100, INR, 0));
  }

  /** A run behind the first of these: one merchant holds a hundred dollars and a hundred rupees, and the
      dollars are released. The rupee balance is gone while the rupee hold is still open. */
  lemma {:induction false} DollarReleaseTakesTheRupees(m: nat, usd: string)
    requires usd != INR
    ensures var s := Run([TakeHold(m, 1, 100, usd, 0), TakeHold(m, 2, 100, INR, 0), Cron([0])]);
            Balance(s, m, INR) == 0 && OpenHolds(s, m, INR, |s.entries|) == 100
  {
    var ops := [TakeHold(m, 1, 100, usd, 0), TakeHold(m, 2, 100, INR, 0), Cron([0])];
    assert ops[..2] == [TakeHold(m, 1, 100, usd, 0), TakeHold(m, 2, 100, INR, 0)] && ops[..3] == ops;
    TwoHolds(m, usd);
    RunTo(ops, 2);
    var s2 := Run(ops[..2]);
    assert [0][..0] == [] && ReleaseEach(s2, [0]) == ReleaseFull(s2, 0);
    FirstHoldReleased(s2, m);
  }

  lemma {:induction false} FirstHoldReleased(s: State, m: nat)
    requires |s.entries| == 2 && IsHold(s, 0) && IsHold(s, 1) && s.links == map[] && (m, ReleaseKey(0)) !in s.keys
    requires s.entries[0].merchant == m && s.entries[0].credit == 100 && s.entries[0].currency != INR
    requires s.entries[1].merchant == m && s.entries[1].credit == 100 && s.entries[1].currency == INR
    requires Balance(s, m, INR) == 100
    ensures var t := ReleaseFull(s, 0); Balance(t, m, INR) == 0 && OpenHolds(t, m, INR, |t.entries|) == 100
  {
    var t := ReleaseFull(s, 0);
    assert |t.entries| == 3 && t.entries[0] == s.entries[0] && t.entries[1] == s.entries[1] && !IsHold(t, 2);
    assert OpenHolds(t, m, INR, 0) == 0;
    assert OpenHolds(t, m, INR, 1) == 0;
    assert OpenHolds(t, m, INR, 2) == 100;
  }

  lemma {:induction false} RunTo(ops: seq<Op>, i: nat)
    requires i < |ops|
    ensures Run(ops[..i + 1]) == Step(Run(ops[..i]), ops[i])
  {
    assert ops[..i + 1][..i] == ops[..i];
  }
}
