/** Bill, payments and vacating of one dine-in session, with the bill cache in between.

    Money is integer paise. Each service call is one step; the grand total an order adds comes from
    the tax engine and is any amount that is not negative. */
module SessionBilling {

  import opened Basics

  datatype Status = Active | Vacated(forced: bool) | Ended

  /** `ref` is empty when the payer gave no transaction reference. */
  datatype Payment = Payment(amount: int, ref: string)

  datatype Bill = Bill(grandTotal: int, paidTotal: int, remaining: int)

  /** `orders` are the totals of the session's orders, `cart` those of its cart lines, `columns` the totals
      kept on the session row, `cache` the bill held in Redis. */
  datatype Account = Account(status: Status, orders: seq<int>, cart: seq<int>, payments: seq<Payment>,
                             columns: Bill, cache: Option<Bill>)

  const FRESH := Account(Active, [], [], [], Bill(0, 0, 0), None)

  function Sum(xs: seq<int>): int { if xs == [] then 0 else Sum(xs[..|xs| - 1]) + xs[|xs| - 1] }

  function Paid(ps: seq<Payment>): int { if ps == [] then 0 else Paid(ps[..|ps| - 1]) + ps[|ps| - 1].amount }

  function NotNegative(x: int): int { if x < 0 then 0 else x }

  function Due(a: Account): int { Sum(a.orders) - Paid(a.payments) }

  // ----- operations -----

  /** A session without orders is billed for its cart. */
  function FreshBill(a: Account): Bill {
    var grand := if a.orders == [] then Sum(a.cart) else Sum(a.orders);
    Bill(grand, Paid(a.payments), NotNegative(grand - Paid(a.payments)))
  }

  /** A cache hit answers without touching the session row. */
  function ReadBill(a: Account): (Account, Bill) {
    if a.cache.Some? then (a, a.cache.value)
    else var bill := FreshBill(a); (a.(columns := bill, cache := Some(bill)), bill)
  }

  /** Eviction is best effort: it fails when the cache cannot be reached. */
  function Evict(a: Account, evictOk: bool): Account { if evictOk then a.(cache := None) else a }

  /** No cart operation evicts the bill. */
  function SetCart(a: Account, cart: seq<int>): Account {
    if a.status != Active || !NoneNegative(cart) then a else a.(cart := cart)
  }

  predicate NoneNegative(xs: seq<int>) { forall i :: 0 <= i < |xs| ==> xs[i] >= 0 }

  /** `slot` names the order still open for items, if there is one. */
  function PlaceOrder(a: Account, slot: Option<nat>, total: int, evictOk: bool): Account {
    if a.status != Active || a.cart == [] || total < 0 then a
    else Evict(a.(orders := Charged(a.orders, slot, total), cart := []), evictOk)
  }

  function Charged(orders: seq<int>, slot: Option<nat>, total: int): seq<int> {
    if slot.Some? && slot.value < |orders| then orders[slot.value := orders[slot.value] + total] else orders + [total]
  }

  datatype VacateResult = Closed | AlreadyClosed | Unpaid

  function Vacate(a: Account, force: bool): (Account, VacateResult) {
    var (b, bill) := ReadBill(a);
    Close(b, bill, force)
  }

  /** The part of vacating that follows the reading of the bill. */
  function Close(a: Account, seen: Bill, force: bool): (Account, VacateResult) {
    if seen.remaining > 0 && !force then (a, Unpaid)
    else if a.status != Active then (a, AlreadyClosed)
    else (a.(status := Vacated(force)), Closed)
  }

  function AddPayment(a: Account, amount: int, ref: string): Account {
    a.(payments := a.payments + [Payment(amount, ref)],
       columns := Bill(Sum(a.orders), Paid(a.payments) + amount, NotNegative(Due(a) - amount)))
  }

  /** What both payment paths do once the row is written. */
  function AfterPayment(a: Account, evictOk: bool): Account {
    var b := Evict(a, evictOk);
    if Due(a) <= 0 then Vacate(b, false).0 else b
  }

  /** Refused unless the session is active and the amount is positive and within what is due. */
  function CounterPayment(a: Account, amount: int, ref: string, evictOk: bool): Account {
    if amount <= 0 || a.status != Active || amount > NotNegative(Due(a)) then a
    else AfterPayment(AddPayment(a, amount, ref), evictOk)
  }

  predicate HasRef(ps: seq<Payment>, ref: string) { exists i :: 0 <= i < |ps| && ps[i].ref == ref }

  predicate Records(a: Account, amount: int, ref: string) {
    !(ref != "" && HasRef(a.payments, ref)) && Due(a) > 0 && amount > 0
  }

  /** A captured gateway payment: skipped if its reference is known, if nothing is due or if the amount
      is not positive, capped at what is due otherwise. The session may be closed already. */
  function GatewayPayment(a: Account, amount: int, ref: string, evictOk: bool): Account {
    if !Records(a, amount, ref) then a
    else AfterPayment(AddPayment(a, Min(amount, Due(a)), ref), evictOk)
  }

  // ----- the service object -----

  class SessionAccount {
    var status: Status
    var orders: seq<int>
    var cart: seq<int>
    var payments: seq<Payment>
    var columns: Bill
    var cache: Option<Bill>

    function Value(): Account
      reads this
    {
      Account(status, orders, cart, payments, columns, cache)
    }

    constructor ()
      ensures Value() == FRESH
    {
      status, orders, cart, payments, columns, cache := Active, [], [], [], Bill(0, 0, 0), None;
    }

    method GetSessionBill() returns (bill: Bill)
      modifies this`columns, this`cache
      ensures (Value(), bill) == ReadBill(old(Value()))
    {
      if cache.Some? {
        return cache.value;
      }
      var grand := if orders == [] then Sum(cart) else Sum(orders);
      var paid := Paid(payments);
      var remaining := grand - paid;
      if remaining < 0 {
        remaining := 0;
      }
      bill := Bill(grand, paid, remaining);
      columns := bill;
      cache := Some(bill);
    }

    method InvalidateBillCache(evictOk: bool)
      modifies this`cache
      ensures Value() == Evict(old(Value()), evictOk)
    {
      if evictOk {
        cache := None;
      }
    }

    method Place(slot: Option<nat>, total: int, evictOk: bool) returns (ok: bool)
      requires total >= 0
      modifies this
      ensures Value() == PlaceOrder(old(Value()), slot, total, evictOk)
      ensures ok <==> old(status) == Active && old(cart) != []
    {
      if status != Active || cart == [] {
        return false;
      }
      if slot.Some? && slot.value < |orders| {
        orders := orders[slot.value := orders[slot.value] + total];
      } else {
        orders := orders + [total];
      }
      cart := [];
      InvalidateBillCache(evictOk);
      ok := true;
    }

    /** The tail both payment paths share: write the row and the columns, evict, vacate when paid. */
    method WritePayment(amount: int, ref: string, grand: int, paid: int, evictOk: bool)
      requires grand == Sum(orders) && paid == Paid(payments)
      modifies this
      ensures Value() == AfterPayment(AddPayment(old(Value()), amount, ref), evictOk)
    {
      PaymentCounts(Value(), amount, ref);
      payments := payments + [Payment(amount, ref)];
      var newRemaining := NotNegative(grand - paid - amount);
      columns := Bill(grand, paid + amount, newRemaining);
      InvalidateBillCache(evictOk);
      if newRemaining <= 0 {
        var result := PaidAndVacate(false);
      }
    }

    method RecordSessionPayment(amount: int, ref: string, evictOk: bool) returns (ok: bool)
      modifies this
      ensures Value() == CounterPayment(old(Value()), amount, ref, evictOk)
      ensures ok <==> old(status) == Active && 0 < amount <= Due(old(Value()))
    {
      if amount <= 0 || status != Active {
        return false;
      }
      var grand, paid := Sum(orders), Paid(payments);
      var remaining := NotNegative(grand - paid);
      if remaining <= 0 || amount > remaining {
        return false;
      }
      WritePayment(amount, ref, grand, paid, evictOk);
      ok := true;
    }

    method SettleSessionFromGateway(amount: int, ref: string, evictOk: bool) returns (recorded: bool)
      modifies this
      ensures Value() == GatewayPayment(old(Value()), amount, ref, evictOk)
      ensures recorded <==> Records(old(Value()), amount, ref)
    {
      if ref != "" && HasRef(payments, ref) {
        return false;
      }
      var grand, paid := Sum(orders), Paid(payments);
      var remaining := grand - paid;
      if remaining <= 0 || amount <= 0 {
        return false;
      }
      var amt := if amount > remaining then remaining else amount;
      WritePayment(amt, ref, grand, paid, evictOk);
      recorded := true;
    }

    method PaidAndVacate(force: bool) returns (result: VacateResult)
      modifies this
      ensures (Value(), result) == Vacate(old(Value()), force)
    {
      var bill := GetSessionBill();
      if bill.remaining > 0 && !force {
        return Unpaid;
      }
      if status != Active {
        return AlreadyClosed;
      }
      status := Vacated(force);
      result := Closed;
    }
  }

  // ----- every run -----

  datatype Op =
    | Cart(cart: seq<int>)
    | Place(slot: Option<nat>, total: int, evictOk: bool)
    | Counter(amount: int, ref: string, evictOk: bool)
    | Gateway(amount: int, ref: string, evictOk: bool)
    | Read
    | CacheLapses
    | VacateTable(force: bool)
    | End

  function Step(a: Account, op: Op): Account {
    match op
    case Cart(cart) => SetCart(a, cart)
    case Place(slot, total, evictOk) => PlaceOrder(a, slot, total, evictOk)
    case Counter(amount, ref, evictOk) => CounterPayment(a, amount, ref, evictOk)
    case Gateway(amount, ref, evictOk) => GatewayPayment(a, amount, ref, evictOk)
    case Read => ReadBill(a).0
    case CacheLapses => a.(cache := None)
    case VacateTable(force) => Vacate(a, force).0
    case End => if a.status == Active then a.(status := Ended) else a
  }

  function Run(a: Account, ops: seq<Op>): Account {
    if ops == [] then a else Step(Run(a, ops[..|ops| - 1]), ops[|ops| - 1])
  }

  /** Payments are positive and never exceed the orders, nothing is paid before there is an order, a
      cached bill never shows less than what is due, and an unforced vacating was paid exactly. */
  ghost predicate Inv(a: Account) {
    && NoneNegative(a.cart) && NoneNegative(a.orders)
    && (forall i :: 0 <= i < |a.payments| ==> a.payments[i].amount > 0)
    && Due(a) >= 0
    && (a.cache.Some? ==> a.cache.value.remaining >= Due(a))
    && (a.status == Vacated(false) ==> Due(a) == 0)
  }

  lemma {:induction false} SumAppend(xs: seq<int>, x: int)
    ensures Sum(xs + [x]) == Sum(xs) + x
  {
    assert (xs + [x])[..|xs|] == xs;
  }

  lemma {:induction false} SumUpdate(xs: seq<int>, i: nat, x: int)
    requires i < |xs|
    ensures Sum(xs[i := x]) == Sum(xs) - xs[i] + x
  {
    var n := |xs| - 1;
    if i < n {
      SumUpdate(xs[..n], i, x);
      assert xs[i := x][..n] == xs[..n][i := x];
    } else {
      assert xs[i := x][..n] == xs[..n];
    }
  }

  lemma PlaceAdds(a: Account, slot: Option<nat>, total: int, evictOk: bool)
    requires a.status == Active && a.cart != [] && total >= 0
    ensures Due(PlaceOrder(a, slot, total, evictOk)) == Due(a) + total
  {
    SumAppend(a.orders, total);
    if slot.Some? && slot.value < |a.orders| {
      SumUpdate(a.orders, slot.value, a.orders[slot.value] + total);
    }
  }

  lemma PaymentCounts(a: Account, amount: int, ref: string)
    ensures Due(AddPayment(a, amount, ref)) == Due(a) - amount
  {
    assert (a.payments + [Payment(amount, ref)])[..|a.payments|] == a.payments;
  }

  lemma {:induction false} SumNotNegative(xs: seq<int>)
    requires NoneNegative(xs)
    ensures Sum(xs) >= 0
  {
    if xs != [] { SumNotNegative(xs[..|xs| - 1]); }
  }

  lemma {:induction false} PaidPositive(ps: seq<Payment>)
    requires forall i :: 0 <= i < |ps| ==> ps[i].amount > 0
    ensures Paid(ps) >= 0
  {
    if ps != [] { PaidPositive(ps[..|ps| - 1]); }
  }

  lemma FreshBillCovers(a: Account)
    requires Inv(a)
    ensures FreshBill(a).remaining >= Due(a)
  {
    PaidPositive(a.payments);
    SumNotNegative(a.cart);
  }

  lemma VacateKeeps(a: Account, force: bool)
    requires Inv(a)
    ensures Inv(Vacate(a, force).0)
  {
    FreshBillCovers(a);
  }

  lemma {:induction false} AddPaymentKeeps(a: Account, amount: int, ref: string)
    requires Inv(a) && 0 < amount <= Due(a)
    ensures Inv(AddPayment(a, amount, ref))
  {
    PaymentCounts(a, amount, ref);
  }

  lemma {:induction false} PaymentKeeps(a: Account, amount: int, ref: string, evictOk: bool)
    requires Inv(a) && 0 < amount <= Due(a)
    ensures Inv(AfterPayment(AddPayment(a, amount, ref), evictOk))
  {
    var b := Evict(AddPayment(a, amount, ref), evictOk);
    AddPaymentKeeps(a, amount, ref);
    assert Inv(b);
    VacateKeeps(b, false);
  }

  /** Order placement is the only operation whose eviction matters. */
  predicate Evicts(op: Op) { op.Place? ==> op.evictOk }

  lemma {:induction false} StepKeepsInv(a: Account, op: Op)
    requires Inv(a) && Evicts(op)
    ensures Inv(Step(a, op))
  {
    match op
    case Place(slot, total, evictOk) =>
      if a.status == Active && a.cart != [] && total >= 0 { PlaceAdds(a, slot, total, evictOk); }
    case Counter(amount, ref, evictOk) =>
      if 0 < amount <= Due(a) { PaymentKeeps(a, amount, ref, evictOk); }
    case Gateway(amount, ref, evictOk) =>
      if Due(a) > 0 && amount > 0 { PaymentKeeps(a, Min(amount, Due(a)), ref, evictOk); }
    case Read => FreshBillCovers(a);
    case VacateTable(force) => VacateKeeps(a, force);
    case _ =>
  }

  lemma {:induction false} RunKeepsInv(ops: seq<Op>)
    requires forall i :: 0 <= i < |ops| ==> Evicts(ops[i])
    ensures Inv(Run(FRESH, ops))
  {
    if ops != [] {
      RunKeepsInv(ops[..|ops| - 1]);
      StepKeepsInv(Run(FRESH, ops[..|ops| - 1]), ops[|ops| - 1]);
    }
  }

  /** In every run whose placements evict the cached bill, whatever happens to the evictions of
      payments: payments never exceed the orders' totals, and a session vacated without force is paid
      to the paisa although the check may have read a cached bill. */
  lemma NeverOverpaidAndVacatedMeansPaid(ops: seq<Op>)
    requires forall i :: 0 <= i < |ops| ==> Evicts(ops[i])
    ensures var a := Run(FRESH, ops);
            && 0 <= Paid(a.payments) <= Sum(a.orders)
            && (a.status == Vacated(false) ==> Paid(a.payments) == Sum(a.orders))
  {
    RunKeepsInv(ops);
    PaidPositive(Run(FRESH, ops).payments);
  }

  /** Exactly when a placement whose eviction fails lets the next unforced vacating close the session
      unpaid: a bill without remainder was cached, and the order left something due. */
  lemma MissedEvictionClosesUnpaidIff(a: Account, slot: Option<nat>, total: int)
    requires Inv(a) && a.status == Active && a.cart != [] && total >= 0
    ensures var (b, result) := Vacate(PlaceOrder(a, slot, total, false), false);
            result == Closed && Due(b) > 0 <==> a.cache.Some? && a.cache.value.remaining == 0 && total > 0
  {
    PlaceAdds(a, slot, total, false);
    PaidPositive(a.payments);
  }

  lemma {:induction false} RunTo(ops: seq<Op>, i: nat)
    requires i < |ops|
    ensures Run(FRESH, ops[..i + 1]) == Step(Run(FRESH, ops[..i]), ops[i])
  {
    assert ops[..i + 1][..i] == ops[..i];
  }

  /** The run behind it: the bill of an empty session is cached, then an order is placed while the
      cache is unreachable, then the table is vacated. */
  lemma MissedEvictionRun()
    ensures var ops := [Read, Cart([100]), Place(None, 100, false), VacateTable(false)];
            Run(FRESH, ops).status == Vacated(false) && Due(Run(FRESH, ops)) == 100
  {
    var ops := [Read, Cart([100]), Place(None, 100, false), VacateTable(false)];
    assert ops[..0] == [] && ops[..4] == ops;
    RunTo(ops, 0);
    RunTo(ops, 1);
    RunTo(ops, 2);
    RunTo(ops, 3);
    SumAppend([], 100);
    assert [] + [100] == [100];
  }

  /** With a working cache too, when the statements of the calls interleave. A placement between
      vacating's reading of the bill and its closing of the session leaves it closed and unpaid exactly
      if the bill that was read had no remainder and the order left something due. */
  lemma {:induction false} PlacementDuringVacateIff(a: Account, slot: Option<nat>, total: int)
    requires Inv(a) && a.status == Active && a.cart != [] && total >= 0
    ensures var (b, bill) := ReadBill(a);
            var (c, result) := Close(PlaceOrder(b, slot, total, true), bill, false);
            result == Closed && Due(c) > 0 <==> bill.remaining == 0 && total > 0
  {
    var b := ReadBill(a).0;
    FreshBillCovers(a);
    PlaceAdds(b, slot, total, true);
  }

  /** A bill computed before a placement and written to the cache after the placement evicted it: the next
      unforced vacating closes the session unpaid exactly under the same condition. */
  lemma {:induction false} LateCacheWriteIff(a: Account, slot: Option<nat>, total: int)
    requires Inv(a) && a.status == Active && a.cart != [] && total >= 0
    ensures var bill := FreshBill(a);
            var late := PlaceOrder(a, slot, total, true).(cache := Some(bill));
            var (c, result) := Vacate(late, false);
            result == Closed && Due(c) > 0 <==> bill.remaining == 0 && total > 0
  {
    FreshBillCovers(a);
    PlaceAdds(a, slot, total, true);
  }

  /** Such a session is reached by reading the bill of an empty session and filling its cart. */
  lemma {:induction false} PlacementDuringVacateRun(price: int)
    requires price > 0
    ensures var a := Run(FRESH, [Read, Cart([price])]);
            var (b, bill) := ReadBill(a);
            var (c, result) := Close(PlaceOrder(b, None, price, true), bill, false);
            Inv(a) && result == Closed && c.status == Vacated(false) && Due(c) == price
  {
    var ops := [Read, Cart([price])];
    assert ops[..0] == [] && ops[..2] == ops;
    RunTo(ops, 0);
    RunTo(ops, 1);
    RunKeepsInv(ops);
    SumAppend([], price);
    assert [] + [price] == [price];
  }

  /** The cache is transparent: once a session has orders and every eviction succeeds, a cached bill
      is the bill a fresh read would compute. */
  ghost predicate Transparent(a: Account) {
    a.cache.Some? && a.orders != [] ==> a.cache.value == FreshBill(a)
  }

  predicate AlwaysEvicts(op: Op) {
    match op case Place(_, _, e) => e case Counter(_, _, e) => e case Gateway(_, _, e) => e case _ => true
  }

  lemma VacateIsTransparent(a: Account, force: bool)
    requires Transparent(a)
    ensures Transparent(Vacate(a, force).0)
  {
  }

  lemma PaymentIsTransparent(a: Account)
    ensures Transparent(AfterPayment(a, true))
  {
    VacateIsTransparent(Evict(a, true), false);
  }

  lemma StepIsTransparent(a: Account, op: Op)
    requires Transparent(a) && AlwaysEvicts(op)
    ensures Transparent(Step(a, op))
  {
    match op
    case Counter(amount, ref, _) => PaymentIsTransparent(AddPayment(a, amount, ref));
    case Gateway(amount, ref, _) => PaymentIsTransparent(AddPayment(a, Min(amount, Due(a)), ref));
    case VacateTable(force) => VacateIsTransparent(a, force);
    case _ =>
  }

  lemma {:induction false} CachedBillIsFresh(ops: seq<Op>)
    requires forall i :: 0 <= i < |ops| ==> AlwaysEvicts(ops[i])
    ensures Transparent(Run(FRESH, ops))
  {
    if ops != [] {
      CachedBillIsFresh(ops[..|ops| - 1]);
      StepIsTransparent(Run(FRESH, ops[..|ops| - 1]), ops[|ops| - 1]);
    }
  }

  // ----- gateway deliveries -----

  datatype Delivery = Delivery(amount: int, ref: string, evictOk: bool)

  function DeliverAll(a: Account, ds: seq<Delivery>): Account {
    if ds == [] then a
    else
      var d := ds[|ds| - 1];
      GatewayPayment(DeliverAll(a, ds[..|ds| - 1]), d.amount, d.ref, d.evictOk)
  }

  /** Some delivery brought reference `r` with a positive amount. */
  predicate Brought(ds: seq<Delivery>, r: string) {
    exists j :: 0 <= j < |ds| && ds[j].ref == r && ds[j].amount > 0
  }

  /** Delivery `d` counts after `earlier` ones if it is positive and brings a reference not seen
      before, or none at all. */
  predicate Counts(earlier: seq<Delivery>, d: Delivery, known: seq<Payment>) {
    d.amount > 0 && (d.ref != "" ==> !HasRef(known, d.ref) && !Brought(earlier, d.ref))
  }

  function Counted(ds: seq<Delivery>, known: seq<Payment>): int {
    if ds == [] then 0
    else
      var n := |ds| - 1;
      Counted(ds[..n], known) + if Counts(ds[..n], ds[n], known) then ds[n].amount else 0
  }

  /** Which references the session knows after deliveries that left something due. */
  ghost predicate RefsTracked(ps: seq<Payment>, ds: seq<Delivery>, known: seq<Payment>) {
    forall r :: r != "" ==> (HasRef(ps, r) <==> HasRef(known, r) || Brought(ds, r))
  }

  lemma BroughtSnoc(ds: seq<Delivery>, r: string)
    requires ds != []
    ensures var n := |ds| - 1; Brought(ds, r) <==> Brought(ds[..n], r) || (ds[n].ref == r && ds[n].amount > 0)
  {
    var n := |ds| - 1;
    var front := ds[..n];
    if Brought(front, r) {
      var j :| 0 <= j < |front| && front[j].ref == r && front[j].amount > 0;
      assert ds[j] == front[j];
    }
    if Brought(ds, r) {
      var j :| 0 <= j < |ds| && ds[j].ref == r && ds[j].amount > 0;
      assert j < n ==> front[j] == ds[j];
    }
  }

  /** The rows a delivery leaves, given the orders' total. */
  function GatewayRows(total: int, ps: seq<Payment>, d: Delivery): seq<Payment> {
    var due := total - Paid(ps);
    if (d.ref != "" && HasRef(ps, d.ref)) || due <= 0 || d.amount <= 0 then ps
    else ps + [Payment(Min(d.amount, due), d.ref)]
  }

  function DeliverRows(total: int, ps: seq<Payment>, ds: seq<Delivery>): seq<Payment> {
    if ds == [] then ps else GatewayRows(total, DeliverRows(total, ps, ds[..|ds| - 1]), ds[|ds| - 1])
  }

  lemma {:induction false} AfterPaymentKeepsRows(a: Account, evictOk: bool)
    ensures AfterPayment(a, evictOk).orders == a.orders && AfterPayment(a, evictOk).payments == a.payments
  {
  }

  lemma {:induction false} GatewayWritesRows(a: Account, d: Delivery)
    ensures var b := GatewayPayment(a, d.amount, d.ref, d.evictOk);
            b.orders == a.orders && b.payments == GatewayRows(Sum(a.orders), a.payments, d)
  {
    AfterPaymentKeepsRows(AddPayment(a, Min(d.amount, Due(a)), d.ref), d.evictOk);
  }

  lemma {:induction false} DeliverAllWritesRows(a: Account, ds: seq<Delivery>)
    ensures DeliverAll(a, ds).orders == a.orders
    ensures DeliverAll(a, ds).payments == DeliverRows(Sum(a.orders), a.payments, ds)
  {
    if ds != [] {
      var n := |ds| - 1;
      DeliverAllWritesRows(a, ds[..n]);
      GatewayWritesRows(DeliverAll(a, ds[..n]), ds[n]);
    }
  }

  lemma GatewayRowsPaid(total: int, ps: seq<Payment>, d: Delivery)
    ensures var due := total - Paid(ps);
            var records := !(d.ref != "" && HasRef(ps, d.ref)) && due > 0 && d.amount > 0;
            total - Paid(GatewayRows(total, ps, d)) == due - (if records then Min(d.amount, due) else 0)
  {
    var p := Payment(Min(d.amount, total - Paid(ps)), d.ref);
    assert (ps + [p])[..|ps|] == ps;
  }

  lemma HasRefAppend(ps: seq<Payment>, p: Payment, r: string)
    ensures HasRef(ps + [p], r) <==> HasRef(ps, r) || p.ref == r
  {
    assert (ps + [p])[|ps|] == p;
    if HasRef(ps, r) {
      var i :| 0 <= i < |ps| && ps[i].ref == r;
      assert (ps + [p])[i].ref == r;
    }
  }

  /** Deliveries may be duplicated and reordered, reuse references with other amounts, or carry none:
      what is due afterwards is what was due less the amounts that count, never below zero. */
  lemma {:induction false} RowsSettle(total: int, ps: seq<Payment>, ds: seq<Delivery>)
    ensures var due, qs := total - Paid(ps), DeliverRows(total, ps, ds);
            && total - Paid(qs) == (if due <= 0 then due else Max(0, due - Counted(ds, ps)))
            && (total - Paid(qs) > 0 ==> RefsTracked(qs, ds, ps))
    ensures Counted(ds, ps) >= 0
  {
    if ds != [] {
      var n := |ds| - 1;
      RowsSettle(total, ps, ds[..n]);
      var qs := DeliverRows(total, ps, ds[..n]);
      if total - Paid(qs) > 0 {
        RefsStayTracked(total, qs, ds, ps);
        CountsIffNew(qs, ds, ps);
      }
      LastDeliverySettles(total, ps, qs, ds);
    }
  }

  /** The sums of the last delivery, once it is known whether its reference is new. */
  lemma {:induction false} LastDeliverySettles(total: int, ps: seq<Payment>, qs: seq<Payment>, ds: seq<Delivery>)
    requires ds != [] && Counted(ds[..|ds| - 1], ps) >= 0
    requires var due := total - Paid(ps);
             total - Paid(qs) == if due <= 0 then due else Max(0, due - Counted(ds[..|ds| - 1], ps))
    requires var n := |ds| - 1;
             total - Paid(qs) > 0 ==> (Counts(ds[..n], ds[n], ps) <==> IsNew(qs, ds[n]))
    ensures var due := total - Paid(ps);
            total - Paid(GatewayRows(total, qs, ds[|ds| - 1])) == if due <= 0 then due else Max(0, due - Counted(ds, ps))
    ensures Counted(ds, ps) >= 0
  {
    GatewayRowsPaid(total, qs, ds[|ds| - 1]);
  }

  predicate IsNew(ps: seq<Payment>, d: Delivery) { d.amount > 0 && !(d.ref != "" && HasRef(ps, d.ref)) }

  lemma {:induction false} CountsIffNew(qs: seq<Payment>, ds: seq<Delivery>, known: seq<Payment>)
    requires ds != [] && RefsTracked(qs, ds[..|ds| - 1], known)
    ensures var n := |ds| - 1;
            Counts(ds[..n], ds[n], known) <==> IsNew(qs, ds[n])
  {
  }

  lemma {:induction false} RefsStayTracked(total: int, qs: seq<Payment>, ds: seq<Delivery>, known: seq<Payment>)
    requires ds != [] && total - Paid(qs) > 0 && RefsTracked(qs, ds[..|ds| - 1], known)
    ensures RefsTracked(GatewayRows(total, qs, ds[|ds| - 1]), ds, known)
  {
    var d := ds[|ds| - 1];
    forall r | r != "" ensures HasRef(GatewayRows(total, qs, d), r) <==> HasRef(known, r) || Brought(ds, r) {
      HasRefAppend(qs, Payment(Min(d.amount, total - Paid(qs)), d.ref), r);
      BroughtSnoc(ds, r);
    }
  }

  /** The formula of the settlement, for every sequence of deliveries: the paid total ends at the
      grand total or at what was paid before plus the counted amounts, whichever is less. */
  lemma {:induction false} RowsFinalPaid(total: int, ps: seq<Payment>, ds: seq<Delivery>)
    requires Paid(ps) <= total
    ensures Paid(DeliverRows(total, ps, ds)) == Min(total, Paid(ps) + Counted(ds, ps))
  {
    RowsSettle(total, ps, ds);
  }

  function RefCount(ps: seq<Payment>, ref: string): nat {
    if ps == [] then 0 else RefCount(ps[..|ps| - 1], ref) + if ps[|ps| - 1].ref == ref then 1 else 0
  }

  lemma {:induction false} RefCountPositive(ps: seq<Payment>, ref: string)
    ensures RefCount(ps, ref) > 0 <==> HasRef(ps, ref)
  {
    if ps != [] {
      var n := |ps| - 1;
      RefCountPositive(ps[..n], ref);
      HasRefAppend(ps[..n], ps[n], ref);
      assert ps == ps[..n] + [ps[n]];
    }
  }

  /** Deliveries record a reference at most once, and not at all if the session already knew it. */
  lemma {:induction false} RefsRecordedOnce(total: int, ps: seq<Payment>, ds: seq<Delivery>, ref: string)
    requires ref != ""
    ensures var after := RefCount(DeliverRows(total, ps, ds), ref);
            if HasRef(ps, ref) then after == RefCount(ps, ref) else after <= 1
  {
    RefCountPositive(ps, ref);
    if ds != [] {
      var n := |ds| - 1;
      RefsRecordedOnce(total, ps, ds[..n], ref);
      var qs := DeliverRows(total, ps, ds[..n]);
      RefCountPositive(qs, ref);
      var p := Payment(Min(ds[n].amount, total - Paid(qs)), ds[n].ref);
      assert (qs + [p])[..|qs|] == qs;
    }
  }

  // ----- order and repetition of deliveries -----

  /** Every delivery carries a reference, and a reference always carries the same amount. */
  ghost predicate Consistent(ds: seq<Delivery>) {
    && (forall i :: 0 <= i < |ds| ==> ds[i].ref != "")
    && (forall i, j :: 0 <= i < |ds| && 0 <= j < |ds| && ds[i].ref == ds[j].ref ==> ds[i].amount == ds[j].amount)
  }

  function Receipts(ds: seq<Delivery>, known: seq<Payment>): set<(string, int)> {
    set i | 0 <= i < |ds| && ds[i].amount > 0 && !HasRef(known, ds[i].ref) :: (ds[i].ref, ds[i].amount)
  }

  ghost function Total(s: set<(string, int)>): int {
    if s == {} then 0 else var x :| x in s; x.1 + Total(s - {x})
  }

  lemma {:induction false} TotalRemove(s: set<(string, int)>, x: (string, int))
    requires x in s
    ensures Total(s) == x.1 + Total(s - {x})
    decreases |s|
  {
    var y :| y in s && Total(s) == y.1 + Total(s - {y});
    if y != x {
      TotalRemove(s - {y}, x);
      TotalRemove(s - {x}, y);
      assert s - {y} - {x} == s - {x} - {y};
    }
  }

  lemma ReceiptsSnoc(ds: seq<Delivery>, known: seq<Payment>)
    requires ds != [] && Consistent(ds)
    ensures var n := |ds| - 1;
            var before, after, x := Receipts(ds[..n], known), Receipts(ds, known), (ds[n].ref, ds[n].amount);
            && Consistent(ds[..n])
            && (Counts(ds[..n], ds[n], known) ==> x !in before && after == before + {x})
            && (!Counts(ds[..n], ds[n], known) ==> after == before)
  {
    var n := |ds| - 1;
    var front := ds[..n];
    var before, x := Receipts(front, known), (ds[n].ref, ds[n].amount);
    assert forall i :: 0 <= i < n ==> front[i] == ds[i];
    var isNew := ds[n].amount > 0 && !HasRef(known, ds[n].ref);
    forall y ensures y in Receipts(ds, known) <==> y in before || (isNew && y == x) {
      if y in before {
        var i :| 0 <= i < n && front[i].amount > 0 && !HasRef(known, front[i].ref) && y == (front[i].ref, front[i].amount);
        assert y == (ds[i].ref, ds[i].amount);
      }
    }
    assert isNew && Brought(front, ds[n].ref) ==> x in before;
  }

  lemma {:induction false} CountedIsTotal(ds: seq<Delivery>, known: seq<Payment>)
    requires Consistent(ds)
    ensures Counted(ds, known) == Total(Receipts(ds, known))
  {
    if ds != [] {
      var n := |ds| - 1;
      ReceiptsSnoc(ds, known);
      CountedIsTotal(ds[..n], known);
      if Counts(ds[..n], ds[n], known) {
        var x := (ds[n].ref, ds[n].amount);
        TotalRemove(Receipts(ds, known), x);
        assert Receipts(ds, known) - {x} == Receipts(ds[..n], known);
      }
    }
  }

  /** For consistent deliveries: what was paid before plus each distinct new receipt once, capped at
      the grand total. */
  lemma {:induction false} FinalPaid(total: int, ps: seq<Payment>, ds: seq<Delivery>)
    requires Paid(ps) <= total && Consistent(ds)
    ensures Paid(DeliverRows(total, ps, ds)) == Min(total, Paid(ps) + Total(Receipts(ds, ps)))
  {
    RowsFinalPaid(total, ps, ds);
    CountedIsTotal(ds, ps);
  }

  /** Only the set of receipts matters: any two histories with the same receipts, however repeated and
      ordered, leave the same amount paid. */
  lemma {:induction false} OrderAndRepetitionDoNotMatter(total: int, ps: seq<Payment>, ds: seq<Delivery>,
      es: seq<Delivery>)
    requires Paid(ps) <= total && Consistent(ds) && Consistent(es)
    requires Receipts(ds, ps) == Receipts(es, ps)
    ensures Paid(DeliverRows(total, ps, ds)) == Paid(DeliverRows(total, ps, es))
  {
    FinalPaid(total, ps, ds);
    FinalPaid(total, ps, es);
  }

  /** The same on the whole session: paying through the gateway moves no order, and the paid total
      follows the formula whatever becomes of the bill cache and of the evictions. */
  lemma {:induction false} SessionFinalPaid(a: Account, ds: seq<Delivery>)
    requires Due(a) >= 0 && Consistent(ds)
    ensures DeliverAll(a, ds).orders == a.orders
    ensures Paid(DeliverAll(a, ds).payments) == Min(Sum(a.orders), Paid(a.payments) + Total(Receipts(ds, a.payments)))
  {
    FinalPaid(Sum(a.orders), a.payments, ds);
    DeliverAllWritesRows(a, ds);
  }
}
