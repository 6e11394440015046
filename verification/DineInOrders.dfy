/** Dine-in orders, their items and their kitchen tickets: placing from the cart, status changes and
    merging two sessions. Identifiers are positions, so a new row takes the next one. */
module DineInOrders {

  import opened Basics
  import opened OrderStatuses

  datatype Charge = Charge(subtotal: int, tax: int, total: int)

  datatype Order = Order(status: OrderStatus, charge: Charge)

  datatype Item = Item(order: nat, price: int, cgst: int, sgst: int, inclusive: bool)

  datatype LineTax = LineTax(cgst: int, sgst: int, inclusive: bool)

  /** A row of the kitchen ticket `ticket`, made for order item `item`. */
  datatype TicketRow = TicketRow(ticket: nat, item: nat)

  datatype Role = Owner | Linked

  datatype Session = Session(table: nat, active: bool, activeOrder: Option<nat>, mergedInto: Option<nat>,
                             cart: seq<int>)

  /** `tickets` holds the order of each ticket, `links` the role of a session towards an order. */
  datatype Floor = Floor(orders: seq<Order>, items: seq<Item>, tickets: seq<nat>, rows: seq<TicketRow>,
                         sessions: map<nat, Session>, links: map<(nat, nat), Role>)

  // ----- placing an order -----

  /** A line the tax engine returned nothing for carries no tax. */
  function ItemFor(order: nat, cart: seq<int>, taxes: seq<LineTax>, i: nat): Item
    requires i < |cart|
  {
    if i < |taxes| then Item(order, cart[i], taxes[i].cgst, taxes[i].sgst, taxes[i].inclusive)
    else Item(order, cart[i], 0, 0, false)
  }

  function ItemsFor(order: nat, cart: seq<int>, taxes: seq<LineTax>): seq<Item> {
    seq(|cart|, i requires 0 <= i < |cart| => ItemFor(order, cart, taxes, i))
  }

  function RowsFor(ticket: nat, firstItem: nat, n: nat): seq<TicketRow> {
    seq(n, i requires i >= 0 => TicketRow(ticket, firstItem + i))
  }

  function Plus(a: Charge, b: Charge): Charge { Charge(a.subtotal + b.subtotal, a.tax + b.tax, a.total + b.total) }

  /** What a placement reads of its session before it takes the session's lock. */
  datatype Read = Read(active: bool, order: Option<nat>)

  /** The session must have been active at the read; the cart is read under the lock. */
  predicate CanPlace(f: Floor, sid: nat, read: Read) {
    read.active && sid in f.sessions && f.sessions[sid].cart != []
  }

  /** The placement adds to the order it read earlier if that one is still editable. */
  predicate Appends(f: Floor, order: Option<nat>) {
    order.Some? && order.value < |f.orders| && Editable(f.orders[order.value].status)
  }

  function Place(f: Floor, sid: nat, read: Read, taxes: seq<LineTax>, charge: Charge): Floor {
    if !CanPlace(f, sid, read) then f
    else
      var s := f.sessions[sid].(cart := []);
      var cart := f.sessions[sid].cart;
      if Appends(f, read.order) then
        var oid := read.order.value;
        var order := f.orders[oid];
        f.(orders := f.orders[oid := order.(charge := Plus(order.charge, charge))],
           items := f.items + ItemsFor(oid, cart, taxes),
           tickets := f.tickets + [oid],
           rows := f.rows + RowsFor(|f.tickets|, |f.items|, |cart|),
           sessions := f.sessions[sid := s])
      else
        var oid := |f.orders|;
        f.(orders := f.orders + [Order(Queued, charge)],
           items := f.items + ItemsFor(oid, cart, taxes),
           tickets := f.tickets + [oid],
           rows := f.rows + RowsFor(|f.tickets|, |f.items|, |cart|),
           sessions := f.sessions[sid := s.(activeOrder := Some(oid))],
           links := f.links[(sid, oid) := Owner])
  }

  // ----- merging -----

  datatype MergeError = NotActive | SameSession | OtherTable | SourceMerged | TargetMerged | NothingToMerge
                      | NoSuchOrder | OrderFinished

  predicate Finished(f: Floor, oid: nat) {
    oid < |f.orders| && f.orders[oid].status in {Cancelled, Rejected, Served, Delivered}
  }

  /** `s` and `t` are the rows of the two sessions as the request read them before its lock; the statuses
      of the orders are read under it. Orders named by a session exist, as the foreign key demands. */
  function Refusal(f: Floor, src: nat, tgt: nat, s: Session, t: Session): Option<MergeError> {
    if src !in f.sessions || !s.active || tgt !in f.sessions || !t.active then Some(NotActive)
    else if src == tgt then Some(SameSession)
    else if s.table != t.table then Some(OtherTable)
    else if s.mergedInto.Some? then Some(SourceMerged)
    else if t.mergedInto.Some? then Some(TargetMerged)
    else
      var so, to := s.activeOrder, t.activeOrder;
      if to.None? && so.None? then Some(NothingToMerge)
      else if (so.Some? && so.value >= |f.orders|) || (to.Some? && to.value >= |f.orders|) then Some(NoSuchOrder)
      else if so.Some? && to.Some? && so != to && (Finished(f, so.value) || Finished(f, to.value)) then Some(OrderFinished)
      else None
  }

  function MovedItems(items: seq<Item>, from: nat, to: nat): seq<Item> {
    seq(|items|, i requires 0 <= i < |items| => if items[i].order == from then items[i].(order := to) else items[i])
  }

  function MovedTickets(tickets: seq<nat>, from: nat, to: nat): seq<nat> {
    seq(|tickets|, i requires 0 <= i < |tickets| => if tickets[i] == from then to else tickets[i])
  }

  /** The amounts summed over the items of an order. */
  datatype Column = Price | Tax | ExclusiveTax

  function Amount(item: Item, column: Column): int {
    match column
    case Price => item.price
    case Tax => item.cgst + item.sgst
    case ExclusiveTax => if item.inclusive then 0 else item.cgst + item.sgst
  }

  function Sum(items: seq<Item>, oid: nat, column: Column): int {
    if items == [] then 0
    else
      var item := items[|items| - 1];
      Sum(items[..|items| - 1], oid, column) + if item.order == oid then Amount(item, column) else 0
  }

  /** What an order costs by its lines: their prices plus the tax that is not included in them. */
  function LineTotal(items: seq<Item>, oid: nat): int { Sum(items, oid, Price) + Sum(items, oid, ExclusiveTax) }

  /** Moves order `so` into order `to`: items, tickets, new charge, and the source cancelled. */
  function MoveOrder(f: Floor, so: nat, to: nat): Floor
    requires so < |f.orders| && to < |f.orders|
  {
    var items := MovedItems(f.items, so, to);
    var charge := Charge(Sum(items, to, Price), Sum(items, to, Tax), LineTotal(items, to));
    var orders := f.orders[to := f.orders[to].(charge := charge)];
    f.(items := items, tickets := MovedTickets(f.tickets, so, to),
       orders := orders[so := orders[so].(status := Cancelled)])
  }

  predicate BothExist(f: Floor, so: nat, to: nat) { so < |f.orders| && to < |f.orders| }

  function Merge(f: Floor, src: nat, tgt: nat, s: Session, t: Session): Floor {
    if Refusal(f, src, tgt, s, t).Some? then f
    else
      var so, to := s.activeOrder, t.activeOrder;
      var oid := if to.Some? then to.value else so.value;
      var g := if so.Some? && so.value != oid then MoveOrder(f, so.value, oid) else f;
      Join(g, src, tgt, oid, to.None?)
  }

  /** The source ends on order `oid`, and so does the target if it `adopts` it; the carts end in the
      target. */
  function Join(f: Floor, src: nat, tgt: nat, oid: nat, adopts: bool): Floor
    requires src in f.sessions && tgt in f.sessions && src != tgt
  {
    var s := f.sessions[src].(cart := [], mergedInto := Some(tgt), activeOrder := Some(oid));
    var t := f.sessions[tgt].(cart := f.sessions[tgt].cart + f.sessions[src].cart,
                              activeOrder := if adopts then Some(oid) else f.sessions[tgt].activeOrder);
    var links := f.links[(src, oid) := Linked];
    f.(sessions := f.sessions[src := s][tgt := t], links := if (tgt,
       oid) in links then links else links[(tgt, oid) := Owner])
  }

  // ----- other steps -----

  function SetStatus(f: Floor, oid: nat, target: OrderStatus): Floor {
    if oid >= |f.orders| then f
    else f.(orders := f.orders[oid := f.orders[oid].(status := After(f.orders[oid].status, target))])
  }

  function AddToCart(f: Floor, sid: nat, price: int): Floor {
    if sid !in f.sessions || !f.sessions[sid].active then f
    else f.(sessions := f.sessions[sid := f.sessions[sid].(cart := f.sessions[sid].cart + [price])])
  }

  function OpenSession(f: Floor, sid: nat, table: nat): Floor {
    if sid in f.sessions then f else f.(sessions := f.sessions[sid := Session(table, true, None, None, [])])
  }

  function CloseSession(f: Floor, sid: nat): Floor {
    if sid !in f.sessions then f else f.(sessions := f.sessions[sid := f.sessions[sid].(active := false)])
  }

  // ----- the service object -----

  class OrderService {
    var orders: seq<Order>
    var items: seq<Item>
    var tickets: seq<nat>
    var rows: seq<TicketRow>
    var sessions: map<nat, Session>
    var links: map<(nat, nat), Role>

    function Value(): Floor
      reads this
    {
      Floor(orders, items, tickets, rows, sessions, links)
    }

    constructor ()
      ensures Value() == Floor([], [], [], [], map[], map[])
    {
      orders, items, tickets, rows, sessions, links := [], [], [], [], map[], map[];
    }

    method PlaceOrder(sid: nat, read: Read, taxes: seq<LineTax>, charge: Charge) returns (placed: bool)
      modifies this
      ensures Value() == Place(old(Value()), sid, read, taxes, charge)
      ensures placed <==> CanPlace(old(Value()), sid, read)
    {
      if !read.active || sid !in sessions || sessions[sid].cart == [] {
        return false;
      }
      var cart := sessions[sid].cart;
      var oid: nat;
      if read.order.Some? && read.order.value < |orders| && Editable(orders[read.order.value].status) {
        oid := read.order.value;
        orders := orders[oid := orders[oid].(charge := Plus(orders[oid].charge, charge))];
      } else {
        oid := |orders|;
        orders := orders + [Order(Queued, charge)];
        links := links[(sid, oid) := Owner];
        sessions := sessions[sid := sessions[sid].(activeOrder := Some(oid))];
      }
      var firstItem := |items|;
      InsertItems(oid, cart, taxes);
      var ticket := |tickets|;
      tickets := tickets + [oid];
      InsertRows(ticket, firstItem, |cart|);
      sessions := sessions[sid := sessions[sid].(cart := [])];
      placed := true;
    }

    method MergeSessions(src: nat, tgt: nat, s: Session, t: Session) returns (refusal: Option<MergeError>)
      modifies this
      ensures Value() == Merge(old(Value()), src, tgt, s, t)
      ensures refusal == Refusal(old(Value()), src, tgt, s, t)
    {
      refusal := Refusal(Value(), src, tgt, s, t);
      if refusal.Some? {
        return;
      }
      var so, to := s.activeOrder, t.activeOrder;
      var oid := if to.Some? then to.value else so.value;
      if so.Some? && so.value != oid {
        TransferOrder(so.value, oid);
      }
      JoinSessions(src, tgt, oid, to.None?);
    }

    method TransferOrder(so: nat, to: nat)
      requires so != to && so < |orders| && to < |orders|
      modifies this`items, this`tickets, this`orders
      ensures Value() == MoveOrder(old(Value()), so, to)
    {
      items := MovedItems(items, so, to);
      tickets := MovedTickets(tickets, so, to);
      var subtotal, tax := Sum(items, to, Price), Sum(items, to, Tax);
      var grand := subtotal + Sum(items, to, ExclusiveTax);
      orders := orders[to := orders[to].(charge := Charge(subtotal, tax, grand))];
      orders := orders[so := orders[so].(status := Cancelled)];
    }

    method JoinSessions(src: nat, tgt: nat, oid: nat, adopts: bool)
      requires src in sessions && tgt in sessions && src != tgt
      modifies this`sessions, this`links
      ensures Value() == Join(old(Value()), src, tgt, oid, adopts)
    {
      if adopts {
        sessions := sessions[tgt := sessions[tgt].(activeOrder := Some(oid))];
      }
      sessions := sessions[tgt := sessions[tgt].(cart := sessions[tgt].cart + sessions[src].cart)];
      links := links[(src, oid) := Linked];
      if (tgt, oid) !in links {
        links := links[(tgt, oid) := Owner];
      }
      sessions := sessions[src := sessions[src].(cart := [], mergedInto := Some(tgt), activeOrder := Some(oid))];
    }

    method UpdateOrderStatus(oid: nat, target: OrderStatus) returns (verdict: Verdict)
      modifies this`orders
      ensures Value() == SetStatus(old(Value()), oid, target)
      ensures oid < |old(orders)| ==> verdict == Validate(old(orders)[oid].status, target)
    {
      if oid >= |orders| {
        return Illegal;
      }
      verdict := Validate(orders[oid].status, target);
      if verdict.Move? {
        orders := orders[oid := orders[oid].(status := verdict.target)];
      }
    }

    method InsertItems(oid: nat, cart: seq<int>, taxes: seq<LineTax>)
      modifies this`items
      ensures items == old(items) + ItemsFor(oid, cart, taxes)
    {
      for i := 0 to |cart|
        invariant items == old(items) + ItemsFor(oid, cart, taxes)[..i]
      {
        items := items + [ItemFor(oid, cart, taxes, i)];
      }
    }

    method InsertRows(ticket: nat, firstItem: nat, n: nat)
      modifies this`rows
      ensures rows == old(rows) + RowsFor(ticket, firstItem, n)
    {
      for i := 0 to n
        invariant rows == old(rows) + RowsFor(ticket, firstItem, n)[..i]
      {
        rows := rows + [TicketRow(ticket, firstItem + i)];
      }
    }
  }

  // ----- every run -----

  datatype Op =
    | Open(sid: nat, table: nat)
    | Close(sid: nat)
    | Add(sid: nat, price: int)
    | PlaceOp(sid: nat, read: Read, taxes: seq<LineTax>, charge: Charge)
    | Status(oid: nat, target: OrderStatus)
    | MergeOp(src: nat, tgt: nat, source: Session, into: Session)

  function Step(f: Floor, op: Op): Floor {
    match op
    case Open(sid, table) => OpenSession(f, sid, table)
    case Close(sid) => CloseSession(f, sid)
    case Add(sid, price) => AddToCart(f, sid, price)
    case PlaceOp(sid, read, taxes, charge) => Place(f, sid, read, taxes, charge)
    case Status(oid, target) => SetStatus(f, oid, target)
    case MergeOp(src, tgt, s, t) => Merge(f, src, tgt, s, t)
  }

  const EMPTY := Floor([], [], [], [], map[], map[])

  function Run(ops: seq<Op>): Floor {
    if ops == [] then EMPTY else Step(Run(ops[..|ops| - 1]), ops[|ops| - 1])
  }

  /** Every row names rows that exist, and no order is in a state of the delivery flow. */
  ghost predicate Sound(f: Floor) {
    && (forall i :: 0 <= i < |f.orders| ==> Editable(f.orders[i].status) || Past(f.orders[i].status))
    && (forall i :: 0 <= i < |f.items| ==> f.items[i].order < |f.orders|)
    && (forall t :: 0 <= t < |f.tickets| ==> f.tickets[t] < |f.orders|)
    && (forall sid :: sid in f.sessions && f.sessions[sid].activeOrder.Some? ==> f.sessions[sid].activeOrder.value < |f.orders|)
    && (forall k :: k in f.links ==> k.0 in f.sessions && k.1 < |f.orders|)
  }

  /** Row `i` is the row of item `i`, and its ticket is a ticket of that item's order. */
  ghost predicate Ticketed(f: Floor) {
    && |f.rows| == |f.items|
    && forall i :: 0 <= i < |f.rows| ==>
         f.rows[i].item == i && f.rows[i].ticket < |f.tickets| && f.tickets[f.rows[i].ticket] == f.items[i].order
  }

  lemma {:induction false} PlaceIsSound(f: Floor, sid: nat, read: Read, taxes: seq<LineTax>, charge: Charge)
    requires Sound(f)
    ensures Sound(Place(f, sid, read, taxes, charge))
  {
  }

  lemma {:induction false} PlaceIsTicketed(f: Floor, sid: nat, read: Read, taxes: seq<LineTax>, charge: Charge)
    requires Ticketed(f)
    ensures Ticketed(Place(f, sid, read, taxes, charge))
  {
  }

  lemma {:induction false} MoveIsSound(f: Floor, so: nat, to: nat)
    requires Sound(f) && Ticketed(f) && BothExist(f, so, to)
    ensures Sound(MoveOrder(f, so, to)) && Ticketed(MoveOrder(f, so, to))
  {
  }

  lemma {:induction false} JoinIsSound(f: Floor, src: nat, tgt: nat, oid: nat, adopts: bool)
    requires Sound(f) && Ticketed(f) && src in f.sessions && tgt in f.sessions && src != tgt && oid < |f.orders|
    ensures Sound(Join(f, src, tgt, oid, adopts)) && Ticketed(Join(f, src, tgt, oid, adopts))
  {
  }

  lemma {:induction false} MergeIsSound(f: Floor, src: nat, tgt: nat, s: Session, t: Session)
    requires Sound(f) && Ticketed(f)
    ensures Sound(Merge(f, src, tgt, s, t)) && Ticketed(Merge(f, src, tgt, s, t))
  {
    if Refusal(f, src, tgt, s, t).None? {
      var so, to := s.activeOrder, t.activeOrder;
      var oid := if to.Some? then to.value else so.value;
      if so.Some? && so.value != oid {
        MoveIsSound(f, so.value, oid);
        JoinIsSound(MoveOrder(f, so.value, oid), src, tgt, oid, to.None?);
      } else {
        JoinIsSound(f, src, tgt, oid, to.None?);
      }
    }
  }

  lemma {:induction false} StepIsSound(f: Floor, op: Op)
    requires Sound(f) && Ticketed(f)
    ensures Sound(Step(f, op)) && Ticketed(Step(f, op))
  {
    match op
    case PlaceOp(sid, read, taxes, charge) =>
      PlaceIsSound(f, sid, read, taxes, charge);
      PlaceIsTicketed(f, sid, read, taxes, charge);
    case MergeOp(src, tgt, s, t) => MergeIsSound(f, src, tgt, s, t);
    case _ =>
  }

  lemma {:induction false} RunIsSound(ops: seq<Op>)
    ensures Sound(Run(ops)) && Ticketed(Run(ops))
  {
    if ops != [] {
      RunIsSound(ops[..|ops| - 1]);
      StepIsSound(Run(ops[..|ops| - 1]), ops[|ops| - 1]);
    }
  }

  /** In every run, stale reads included: each order item is on exactly one kitchen ticket, and the
      ticket and the item name the same order. */
  lemma {:induction false} EveryItemIsOnOneTicket(ops: seq<Op>, item: nat)
    requires item < |Run(ops).items|
    ensures var f := Run(ops);
            exists k :: 0 <= k < |f.rows| && OnTicket(f, k, item) && OnlyRow(f, k, item)
  {
    RunIsSound(ops);
    assert OnTicket(Run(ops), item, item) && OnlyRow(Run(ops), item, item);
  }

  predicate OnlyRow(f: Floor, k: nat, item: nat) {
    forall j :: 0 <= j < |f.rows| && f.rows[j].item == item ==> j == k
  }

  predicate OnTicket(f: Floor, k: nat, item: nat) {
    && k < |f.rows| && item < |f.items|
    && f.rows[k].item == item
    && f.rows[k].ticket < |f.tickets| && f.tickets[f.rows[k].ticket] == f.items[item].order
  }

  // ----- one editable order -----

  predicate Owns(f: Floor, sid: nat, oid: nat) { (sid, oid) in f.links && f.links[(sid, oid)] == Owner }

  predicate OwnsEditable(f: Floor, sid: nat, oid: nat) {
    Owns(f, sid, oid) && oid < |f.orders| && Editable(f.orders[oid].status)
  }

  /** An editable order that a session owns is its active order. */
  ghost predicate Current(f: Floor) {
    forall sid: nat, oid: nat :: OwnsEditable(f, sid, oid) ==>
      sid in f.sessions && f.sessions[sid].activeOrder == Some(oid)
  }

  /** What a whole operation reads: the rows of its sessions at the time it writes. */
  predicate Fresh(f: Floor, op: Op) {
    && (op.PlaceOp? && op.sid in f.sessions ==> op.read == Read(f.sessions[op.sid].active, f.sessions[op.sid].activeOrder))
    && (op.MergeOp? && op.src in f.sessions ==> op.source == f.sessions[op.src])
    && (op.MergeOp? && op.tgt in f.sessions ==> op.into == f.sessions[op.tgt])
  }

  lemma {:induction false} PlaceIsCurrent(f: Floor, sid: nat, read: Read, taxes: seq<LineTax>, charge: Charge)
    requires Sound(f) && Current(f) && sid in f.sessions && read.order == f.sessions[sid].activeOrder
    ensures Current(Place(f, sid, read, taxes, charge))
  {
    var g := Place(f, sid, read, taxes, charge);
    forall s: nat, o: nat | OwnsEditable(g, s, o) ensures s in g.sessions && g.sessions[s].activeOrder == Some(o) {
      assert o < |f.orders| ==> OwnsEditable(f, s, o);
    }
  }

  lemma {:induction false} MergeIsCurrent(f: Floor, src: nat, tgt: nat)
    requires Sound(f) && Current(f) && src in f.sessions && tgt in f.sessions
    ensures Current(Merge(f, src, tgt, f.sessions[src], f.sessions[tgt]))
  {
    var g := Merge(f, src, tgt, f.sessions[src], f.sessions[tgt]);
    forall s: nat, o: nat | OwnsEditable(g, s, o) ensures s in g.sessions && g.sessions[s].activeOrder == Some(o) {
      if (s, o) in f.links && f.links[(s, o)] == Owner {
        assert OwnsEditable(f, s, o);
      }
    }
  }

  lemma {:induction false} StatusIsCurrent(f: Floor, oid: nat, target: OrderStatus)
    requires Sound(f) && Current(f)
    ensures Current(SetStatus(f, oid, target))
  {
    var g := SetStatus(f, oid, target);
    forall s: nat, o: nat | OwnsEditable(g, s, o) ensures s in g.sessions && g.sessions[s].activeOrder == Some(o) {
      assert OwnsEditable(f, s, o);
    }
  }

  lemma {:induction false} StepIsCurrent(f: Floor, op: Op)
    requires Sound(f) && Current(f) && Fresh(f, op)
    ensures Current(Step(f, op))
  {
    match op
    case PlaceOp(sid, read, taxes, charge) =>
      if sid in f.sessions { PlaceIsCurrent(f, sid, read, taxes, charge); }
    case MergeOp(src, tgt, s, t) =>
      if src in f.sessions && tgt in f.sessions { MergeIsCurrent(f, src, tgt); }
    case Status(oid, target) => StatusIsCurrent(f, oid, target);
    case Open(sid, table) => assert forall s: nat, o: nat :: OwnsEditable(Step(f, op), s, o) ==> OwnsEditable(f, s, o);
    case Close(sid) => assert forall s: nat, o: nat :: OwnsEditable(Step(f, op), s, o) ==> OwnsEditable(f, s, o);
    case Add(sid, price) => assert forall s: nat, o: nat :: OwnsEditable(Step(f, op), s, o) ==> OwnsEditable(f, s, o);
  }

  /** Every placement and merge of the run reads and writes without another step in between. */
  ghost predicate WholeOperations(ops: seq<Op>) {
    forall i :: 0 <= i < |ops| ==> Fresh(Run(ops[..i]), ops[i])
  }

  lemma {:induction false} RunIsCurrent(ops: seq<Op>)
    requires WholeOperations(ops)
    ensures Current(Run(ops))
  {
    if ops != [] {
      var n := |ops| - 1;
      var front := ops[..n];
      assert forall i :: 0 <= i < n ==> front[..i] == ops[..i] && front[i] == ops[i];
      RunIsCurrent(front);
      RunIsSound(front);
      StepIsCurrent(Run(front), ops[n]);
    }
  }

  /** With whole operations as steps, merges included, a session never owns two orders that are both
      in Queued or Preparing. */
  lemma {:induction false} OneEditableOrder(ops: seq<Op>, sid: nat, o1: nat, o2: nat)
    requires WholeOperations(ops)
    requires OwnsEditable(Run(ops), sid, o1) && OwnsEditable(Run(ops), sid, o2)
    ensures o1 == o2
  {
    RunIsCurrent(ops);
  }

  /** Exactly when a placement with any read, stale or not, leaves the session with at most one
      editable order of its own: it adds to an editable order, or there was none. */
  lemma {:induction false} OneEditableKeptIff(f: Floor, sid: nat, read: Read, taxes: seq<LineTax>, charge: Charge)
    requires Sound(f) && Current(f) && CanPlace(f, sid, read)
    ensures AtMostOneEditable(Place(f, sid, read, taxes, charge), sid)
       <==> Appends(f, read.order) || !OwnsActive(f, sid)
  {
    var g := Place(f, sid, read, taxes, charge);
    assert forall o: nat :: o < |f.orders| ==> (OwnsEditable(g, sid, o) <==> OwnsEditable(f, sid, o));
    if !Appends(f, read.order) {
      assert OwnsEditable(g, sid, |f.orders|);
      if OwnsActive(f, sid) {
        assert OwnsEditable(g, sid, f.sessions[sid].activeOrder.value);
      }
    }
  }

  predicate OwnsActive(f: Floor, sid: nat) {
    sid in f.sessions && f.sessions[sid].activeOrder.Some? && OwnsEditable(f, sid, f.sessions[sid].activeOrder.value)
  }

  ghost predicate AtMostOneEditable(f: Floor, sid: nat) {
    forall o1: nat, o2: nat :: OwnsEditable(f, sid, o1) && OwnsEditable(f, sid, o2) ==> o1 == o2
  }

  /** Two requests that both read a session without an active order before either took the lock: with
      something added to the cart in between, the second one opens a second queued order. */
  lemma {:induction false} StaleReadOpensASecondOrder(f: Floor, sid: nat, price: int, taxes: seq<LineTax>,
      charge: Charge)
    requires Sound(f) && CanPlace(f, sid, Read(true, None)) && f.sessions[sid].active
        && f.sessions[sid].activeOrder == None
    ensures var place := PlaceOp(sid, Read(true, None), taxes, charge);
            !AtMostOneEditable(Step(Step(Step(f, place), Add(sid, price)), place), sid)
  {
    var place, n := PlaceOp(sid, Read(true, None), taxes, charge), |f.orders|;
    var f1 := Step(f, place);
    assert OwnsEditable(f1, sid, n);
    var f2 := Step(f1, Add(sid, price));
    assert OwnsEditable(f2, sid, n);
    var f3 := Step(f2, place);
    assert OwnsEditable(f3, sid, n) && OwnsEditable(f3, sid, n + 1);
  }

  /** A request that read its session while it was active still opens an order after the session closed. */
  lemma {:induction false} ClosedSessionStillOrders(f: Floor, sid: nat, taxes: seq<LineTax>, charge: Charge)
    requires sid in f.sessions && f.sessions[sid].active && f.sessions[sid].cart != []
        && !Appends(f, f.sessions[sid].activeOrder)
    ensures var read := Read(true, f.sessions[sid].activeOrder);
            var g := Step(Step(f, Close(sid)), PlaceOp(sid, read, taxes, charge));
            !g.sessions[sid].active && OwnsEditable(g, sid, |f.orders|)
  {
    assert f.orders == Step(f, Close(sid)).orders;
  }

  /** Such a session is the first one opened, once it has something in its cart. */
  lemma {:induction false} StaleReadIsReachable(table: nat, price: int)
    ensures var f := Run([Open(0, table), Add(0, price)]);
            Sound(f) && CanPlace(f, 0, Read(true, None)) && f.sessions[0].active && f.sessions[0].activeOrder == None
  {
    var ops := [Open(0, table), Add(0, price)];
    var f := Step(EMPTY, ops[0]);
    assert ops[..1][..0] == [] && Run(ops[..1]) == f;
    assert f.sessions[0] == Session(table, true, None, None, []);
    assert Run(ops) == Step(f, ops[1]);
    assert Run(ops).sessions[0] == Session(table, true, None, None, [] + [price]);
    RunIsSound(ops);
  }

  // ----- what a merge moves -----

  ghost function ItemsOf(f: Floor, oid: nat): set<nat> { set i: nat | i < |f.items| && f.items[i].order == oid }

  ghost function TicketsOf(f: Floor, oid: nat): set<nat> { set t: nat | t < |f.tickets| && f.tickets[t] == oid }

  /** Two orders that differ: the target ends with the disjoint union of items and tickets, the source
      with none, and every other order keeps its own. */
  lemma {:induction false} MergeMovesEverything(f: Floor, so: nat, to: nat, other: nat)
    requires BothExist(f, so, to) && so != to && other != so && other != to
    ensures var g := MoveOrder(f, so, to);
            && ItemsOf(f, to) !! ItemsOf(f, so)
            && ItemsOf(g, to) == ItemsOf(f, to) + ItemsOf(f, so)
            && ItemsOf(g, so) == {} && ItemsOf(g, other) == ItemsOf(f, other)
            && TicketsOf(g, to) == TicketsOf(f, to) + TicketsOf(f, so)
            && TicketsOf(g, so) == {} && TicketsOf(g, other) == TicketsOf(f, other)
  {
    var g := MoveOrder(f, so, to);
    assert forall i :: 0 <= i < |f.items| ==>
      g.items[i].order == if f.items[i].order == so then to else f.items[i].order;
    assert forall t :: 0 <= t < |f.tickets| ==> g.tickets[t] == if f.tickets[t] == so then to else f.tickets[t];
  }

  /** A whole merge of two sessions whose orders differ: the source's order is left empty and
      cancelled, the target's order holds everything, no other order changes, and both sessions end on
      the target's order with the carts in the target. */
  lemma {:induction false} MergeMeaning(f: Floor, src: nat, tgt: nat, so: nat, to: nat)
    requires Sound(f) && src in f.sessions && tgt in f.sessions && so != to
    requires f.sessions[src].activeOrder == Some(so) && f.sessions[tgt].activeOrder == Some(to)
    requires Refusal(f, src, tgt, f.sessions[src], f.sessions[tgt]) == None
    ensures var g := Merge(f, src, tgt, f.sessions[src], f.sessions[tgt]);
            && ItemsOf(g, to) == ItemsOf(f, to) + ItemsOf(f, so) && ItemsOf(g, so) == {}
            && g.orders[so].status == Cancelled && g.orders[to].status == f.orders[to].status
            && g.orders[to].charge.total == LineTotal(f.items, to) + LineTotal(f.items, so)
            && (forall o :: 0 <= o < |f.orders| && o != so && o != to ==> g.orders[o] == f.orders[o])
            && g.sessions[src].activeOrder == g.sessions[tgt].activeOrder == Some(to)
            && g.sessions[tgt].cart == f.sessions[tgt].cart + f.sessions[src].cart && g.sessions[src].cart == []
  {
    MergeMovesEverything(f, so, to, so + to + 1);
    MergeKeepsTotalIff(f, so, to);
    var m := MoveOrder(f, so, to);
    var g := Join(m, src, tgt, to, false);
    assert Merge(f, src, tgt, f.sessions[src], f.sessions[tgt]) == g;
    assert ItemsOf(g, to) == ItemsOf(m, to) && ItemsOf(g, so) == ItemsOf(m, so);
  }

  lemma {:induction false} SumMoved(items: seq<Item>, so: nat, to: nat, oid: nat, column: Column)
    requires so != to
    ensures Sum(MovedItems(items, so, to), oid, column)
         == if oid == to then Sum(items, to, column) + Sum(items, so, column)
            else if oid == so then 0
            else Sum(items, oid, column)
  {
    if items != [] {
      var n := |items| - 1;
      SumMoved(items[..n], so, to, oid, column);
      assert MovedItems(items, so, to)[..n] == MovedItems(items[..n], so, to);
    }
  }

  /** What the stored total of an order says beyond its lines, such as a rounding. */
  function Drift(f: Floor, oid: nat): int
    requires oid < |f.orders|
  {
    f.orders[oid].charge.total - LineTotal(f.items, oid)
  }

  /** The merged total is that of the lines of both orders, so it keeps the sum of the two stored
      totals exactly when their drifts cancel. */
  lemma {:induction false} MergeKeepsTotalIff(f: Floor, so: nat, to: nat)
    requires BothExist(f, so, to) && so != to
    ensures var g := MoveOrder(f, so, to);
            && g.orders[to].charge.total == LineTotal(f.items, to) + LineTotal(f.items, so)
            && Drift(g, to) == 0
            && (g.orders[to].charge.total == f.orders[to].charge.total + f.orders[so].charge.total
                <==> Drift(f, so) + Drift(f, to) == 0)
  {
    SumMoved(f.items, so, to, to, Price);
    SumMoved(f.items, so, to, to, ExclusiveTax);
  }

  // ----- totals over runs -----

  lemma {:induction false} SumConcat(xs: seq<Item>, ys: seq<Item>, oid: nat, column: Column)
    ensures Sum(xs + ys, oid, column) == Sum(xs, oid, column) + Sum(ys, oid, column)
  {
    if ys == [] {
      assert xs + ys == xs;
    } else {
      var n := |ys| - 1;
      SumConcat(xs, ys[..n], oid, column);
      assert (xs + ys)[..|xs| + n] == xs + ys[..n];
    }
  }

  lemma {:induction false} SumElsewhere(items: seq<Item>, oid: nat, column: Column)
    requires forall i :: 0 <= i < |items| ==> items[i].order != oid
    ensures Sum(items, oid, column) == 0
  {
    if items != [] { SumElsewhere(items[..|items| - 1], oid, column); }
  }

  function PlacedOn(f: Floor, order: Option<nat>): nat { if Appends(f, order) then order.value else |f.orders| }

  /** The tax engine charged the lines and their exclusive tax, without a rounding. */
  predicate ChargesLines(f: Floor, op: Op) {
    op.PlaceOp? && CanPlace(f, op.sid, op.read) ==>
      var oid := PlacedOn(f, op.read.order);
      op.charge.total == LineTotal(ItemsFor(oid, f.sessions[op.sid].cart, op.taxes), oid)
  }

  ghost predicate NoDrift(f: Floor) {
    forall oid: nat :: oid < |f.orders| && f.orders[oid].status != Cancelled ==> Drift(f, oid) == 0
  }

  lemma {:induction false} LinesAdd(items: seq<Item>, oid: nat, cart: seq<int>, taxes: seq<LineTax>, other: nat)
    ensures var more := ItemsFor(oid, cart, taxes);
            LineTotal(items + more, other) == LineTotal(items, other) + if other == oid then LineTotal(more, oid) else 0
  {
    var more := ItemsFor(oid, cart, taxes);
    SumConcat(items, more, other, Price);
    SumConcat(items, more, other, ExclusiveTax);
    if other != oid {
      SumElsewhere(more, other, Price);
      SumElsewhere(more, other, ExclusiveTax);
    }
  }

  lemma {:induction false} PlaceKeepsNoDrift(f: Floor, op: Op)
    requires Sound(f) && NoDrift(f) && op.PlaceOp? && ChargesLines(f, op)
    ensures NoDrift(Step(f, op))
  {
    if CanPlace(f, op.sid, op.read) {
      var g, oid, cart := Step(f, op), PlacedOn(f, op.read.order), f.sessions[op.sid].cart;
      forall o: nat | o < |g.orders| && g.orders[o].status != Cancelled ensures Drift(g, o) == 0 {
        LinesAdd(f.items, oid, cart, op.taxes, o);
        if o < |f.orders| {
          assert Drift(f, o) == 0;
        } else {
          SumElsewhere(f.items, o, Price);
          SumElsewhere(f.items, o, ExclusiveTax);
        }
      }
    }
  }

  lemma {:induction false} MoveKeepsNoDrift(f: Floor, so: nat, to: nat)
    requires BothExist(f, so, to) && so != to && NoDrift(f)
    ensures NoDrift(MoveOrder(f, so, to))
  {
    var g := MoveOrder(f, so, to);
    forall o: nat | o < |g.orders| && g.orders[o].status != Cancelled ensures Drift(g, o) == 0 {
      SumMoved(f.items, so, to, o, Price);
      SumMoved(f.items, so, to, o, ExclusiveTax);
      assert o != to ==> Drift(f, o) == 0;
    }
  }

  lemma {:induction false} JoinKeepsNoDrift(f: Floor, src: nat, tgt: nat, oid: nat, adopts: bool)
    requires NoDrift(f) && src in f.sessions && tgt in f.sessions && src != tgt
    ensures NoDrift(Join(f, src, tgt, oid, adopts))
  {
    forall o: nat | o < |f.orders| && f.orders[o].status != Cancelled
      ensures Drift(Join(f, src, tgt, oid, adopts), o) == 0
    {
      assert Drift(f, o) == 0;
    }
  }

  lemma {:induction false} MergeKeepsNoDrift(f: Floor, src: nat, tgt: nat, s: Session, t: Session)
    requires NoDrift(f)
    ensures NoDrift(Merge(f, src, tgt, s, t))
  {
    if Refusal(f, src, tgt, s, t).None? {
      var so, to := s.activeOrder, t.activeOrder;
      var oid := if to.Some? then to.value else so.value;
      if so.Some? && so.value != oid {
        MoveKeepsNoDrift(f, so.value, oid);
        JoinKeepsNoDrift(MoveOrder(f, so.value, oid), src, tgt, oid, to.None?);
      } else {
        JoinKeepsNoDrift(f, src, tgt, oid, to.None?);
      }
    }
  }

  lemma {:induction false} StepKeepsNoDrift(f: Floor, op: Op)
    requires Sound(f) && NoDrift(f) && ChargesLines(f, op)
    ensures NoDrift(Step(f, op))
  {
    match op
    case PlaceOp(_, _, _, _) => PlaceKeepsNoDrift(f, op);
    case MergeOp(src, tgt, s, t) => MergeKeepsNoDrift(f, src, tgt, s, t);
    case _ =>
      forall o: nat | o < |f.orders| && Step(f, op).orders[o].status != Cancelled ensures Drift(Step(f, op), o) == 0 {
        assert Drift(f, o) == 0;
      }
  }

  /** If no placement is rounded, then over every run, stale reads and merges included, the stored
      total of each order that is not cancelled is that of its lines; by MergeKeepsTotalIff such a
      merge keeps the sum of the totals. */
  lemma {:induction false} RunKeepsTotals(ops: seq<Op>)
    requires forall i :: 0 <= i < |ops| ==> ChargesLines(Run(ops[..i]), ops[i])
    ensures NoDrift(Run(ops))
  {
    if ops != [] {
      var n := |ops| - 1;
      var front := ops[..n];
      assert forall i :: 0 <= i < n ==> front[..i] == ops[..i] && front[i] == ops[i];
      RunKeepsTotals(front);
      RunIsSound(front);
      StepKeepsNoDrift(Run(front), ops[n]);
    }
  }
}
