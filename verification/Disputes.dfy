/** Disputes: a status machine driven by operators and by repeated, reordered gateway deliveries,
    with one chargeback debit and an append-only event log. Amounts are paise. */
module Disputes {

  import opened Basics

  datatype Status = Opened | UnderReview | EvidenceSubmitted | Won | Lost | Withdrawn

  predicate Terminal(s: Status) { s.Won? || s.Lost? || s.Withdrawn? }

  /** The transition table. */
  function AllowedTransitions(from: Status): set<Status> {
    match from
    case Opened => {UnderReview, EvidenceSubmitted, Won, Lost, Withdrawn}
    case UnderReview => {EvidenceSubmitted, Won, Lost, Withdrawn}
    case EvidenceSubmitted => {Won, Lost, Withdrawn}
    case _ => {}
  }

  /** Gateway status to local status; anything unknown counts as open. */
  function LocalTarget(gatewayStatus: string): Status {
    if gatewayStatus == "under_review" || gatewayStatus == "action_required" then UnderReview
    else if gatewayStatus == "won" then Won
    else if gatewayStatus == "lost" then Lost
    else if gatewayStatus == "closed" then Withdrawn
    else Opened
  }

  /** `Unlisted` is any kind that is not on the service's list. */
  datatype Kind = Chargeback | CustomerComplaint | Fraud | ServiceIssue | DuplicateCharge | OtherKind | Unlisted

  /** Gateway phase to kind; the answer is always on the list. */
  function KindOf(phase: string): (kind: Kind)
    ensures kind != Unlisted
  {
    if phase == "fraud" then Fraud else if phase == "retrieval" then CustomerComplaint else Chargeback
  }

  /** Progress of clawing the merchant's share back from the linked account of a lost dispute. */
  datatype RouteState = Unset | NotApplicable | Pending | Reversed

  /** What the payment of a dispute has on record when it is lost. */
  datatype Allocation = NoPayment | NoAllocation | Frozen

  datatype Dispute = Dispute(merchant: string, kind: Kind, status: Status, amount: int, ledgerEntry: bool,
                             route: RouteState, clawbacks: nat)

  /** `to` is absent on notes and assignments. */
  datatype Event = Event(dispute: nat, from: Option<Status>, to: Option<Status>)

  datatype Debit = Debit(key: nat, amount: int)

  /** `links` holds the gateway mirror rows, by gateway dispute id, with the local dispute stamped on
      each. Ids are drawn from a sequence. */
  datatype Store = Store(disputes: map<nat, Dispute>, events: seq<Event>, ledger: seq<Debit>,
                         links: map<string, Option<nat>>, nextId: nat)

  const EMPTY := Store(map[], [], [], map[], 0)

  // ----- operations -----

  /** The ledger posting is idempotent on the dispute's key. */
  function PostDebit(ledger: seq<Debit>, key: nat, amount: int): seq<Debit> {
    if exists i :: 0 <= i < |ledger| && ledger[i].key == key then ledger else ledger + [Debit(key, amount)]
  }

  function OpenDispute(s: Store, merchant: string, kind: Kind, amount: int): Store {
    if kind == Unlisted || amount <= 0 then s
    else
      s.(disputes := s.disputes[s.nextId := Dispute(merchant, kind, Opened, amount, false, Unset, 0)],
         events := s.events + [Event(s.nextId, None, Some(Opened))],
         nextId := s.nextId + 1)
  }

  function LoseEntry(d: Dispute, allocation: Allocation): Dispute {
    d.(ledgerEntry := true,
       route := match allocation case NoPayment => d.route case NoAllocation => NotApplicable case Frozen => Pending)
  }

  /** The committed part of `transition`. */
  function Move(s: Store, id: nat, to: Status, allocation: Allocation): Store
    requires id in s.disputes
  {
    var d := s.disputes[id];
    var posts := to == Lost && !d.ledgerEntry;
    s.(disputes := s.disputes[id := (if posts then LoseEntry(d, allocation) else d).(status := to)],
       events := s.events + [Event(id, Some(d.status), Some(to))],
       ledger := if posts then PostDebit(s.ledger, id, d.amount) else s.ledger)
  }

  /** The clawback that follows outside the transaction; a failed gateway call leaves it pending. */
  function ReverseRoute(s: Store, id: nat, gatewayOk: bool): Store
    requires id in s.disputes
  {
    var d := s.disputes[id];
    if d.route == Pending && gatewayOk
    then s.(disputes := s.disputes[id := d.(route := Reversed, clawbacks := d.clawbacks + 1)])
    else s
  }

  function Transition(s: Store, id: nat, to: Status, allocation: Allocation, gatewayOk: bool): Store {
    if id !in s.disputes || to !in AllowedTransitions(s.disputes[id].status) then s
    else if to == Lost then ReverseRoute(Move(s, id, to, allocation), id, gatewayOk)
    else Move(s, id, to, allocation)
  }

  function AddNote(s: Store, id: nat): Store {
    if id in s.disputes then s.(events := s.events + [Event(id, None, None)]) else s
  }

  datatype Delivery = Delivery(status: string, phase: string, amount: int, allocation: Allocation, gatewayOk: bool)

  predicate Linked(s: Store, gatewayId: string, merchant: string) {
    && gatewayId in s.links && s.links[gatewayId].Some?
    && s.links[gatewayId].value in s.disputes && s.disputes[s.links[gatewayId].value].merchant == merchant
  }

  /** The local dispute a delivery opens. */
  function OpenFor(s: Store, merchant: string, d: Delivery): Store {
    OpenDispute(s, merchant, KindOf(d.phase), if d.amount > 0 then d.amount else 1)
  }

  /** Stamping the mirror row is an UPDATE, so without a mirror row nothing is stamped. */
  function Link(s: Store, gatewayId: string, id: nat): Store {
    if gatewayId in s.links then s.(links := s.links[gatewayId := Some(id)]) else s
  }

  /** Step 4 of the upsert: a target that is not strictly ahead leaves the dispute alone, except that
      a replay on a lost dispute retries the clawback. */
  function Advance(s: Store, id: nat, d: Delivery): Store
    requires id in s.disputes
  {
    var cur, target := s.disputes[id].status, LocalTarget(d.status);
    if target == cur || Terminal(cur) then (if cur == Lost then ReverseRoute(s, id, d.gatewayOk) else s)
    else if target !in AllowedTransitions(cur) then s
    else Transition(s, id, target, d.allocation, d.gatewayOk)
  }

  function Upsert(s: Store, gatewayId: string, merchant: string, d: Delivery): Store {
    if Linked(s, gatewayId, merchant) then Advance(s, s.links[gatewayId].value, d)
    else Advance(Link(OpenFor(s, merchant, d), gatewayId, s.nextId), s.nextId, d)
  }

  /** The placeholder merchant of webhooks that arrive before the checkout is known. */
  const ORPHAN := "00000000-0000-0000-0000-000000000000"

  predicate Addressed(gatewayId: string, merchant: string) { merchant != ORPHAN && gatewayId != "" }

  /** A delivery for the placeholder or without a gateway id is ignored. */
  function Receive(s: Store, gatewayId: string, merchant: string, d: Delivery): Store {
    if Addressed(gatewayId, merchant) then Upsert(s, gatewayId, merchant, d) else s
  }

  /** The tables, updated in place. */
  class DisputeService {
    var disputes: map<nat, Dispute>
    var events: seq<Event>
    var ledger: seq<Debit>
    var links: map<string, Option<nat>>
    var nextId: nat

    function State(): Store
      reads this
    {
      Store(disputes, events, ledger, links, nextId)
    }

    constructor ()
      ensures State() == EMPTY
    {
      disputes, events, ledger, links, nextId := map[], [], [], map[], 0;
    }

    method Open(merchant: string, kind: Kind, amount: int) returns (ok: bool, id: nat)
      modifies this
      ensures State() == OpenDispute(old(State()), merchant, kind, amount)
      ensures ok <==> kind != Unlisted && amount > 0
      ensures ok ==> id == old(nextId)
    {
      if kind == Unlisted || amount <= 0 {
        return false, 0;
      }
      id := nextId;
      nextId := nextId + 1;
      disputes := disputes[id := Dispute(merchant, kind, Opened, amount, false, Unset, 0)];
      AppendEvent(id, None, Some(Opened));
      ok := true;
    }

    method AppendEvent(id: nat, from: Option<Status>, to: Option<Status>)
      modifies this`events
      ensures events == old(events) + [Event(id, from, to)]
    {
      events := events + [Event(id, from, to)];
    }

    method RetryClawback(id: nat, gatewayOk: bool) returns (raised: bool)
      requires id in disputes
      modifies this`disputes
      ensures State() == ReverseRoute(old(State()), id, gatewayOk)
      ensures raised <==> old(disputes)[id].route == Pending && !gatewayOk
    {
      var d := disputes[id];
      if d.route != Pending {
        return false;
      }
      if !gatewayOk {
        return true;
      }
      disputes := disputes[id := d.(route := Reversed, clawbacks := d.clawbacks + 1)];
      raised := false;
    }

    method ChangeStatus(id: nat, merchant: Option<string>, to: Status, allocation: Allocation, gatewayOk: bool)
        returns (ok: bool)
      modifies this`disputes, this`events, this`ledger
      ensures ok <==> id in old(disputes) && (merchant.None? || merchant.value == old(disputes)[id].merchant)
                      && to in AllowedTransitions(old(disputes)[id].status)
      ensures State() == if ok then Transition(old(State()), id, to, allocation, gatewayOk) else old(State())
    {
      if id !in disputes || (merchant.Some? && merchant.value != disputes[id].merchant) {
        return false;
      }
      var row := disputes[id];
      var cur := row.status;
      if to !in AllowedTransitions(cur) {
        return false;
      }
      if to == Lost && !row.ledgerEntry {
        ledger := PostDebit(ledger, id, row.amount);
        row := LoseEntry(row, allocation);
      }
      disputes := disputes[id := row.(status := to)];
      AppendEvent(id, Some(cur), Some(to));
      if to == Lost {
        var raised := RetryClawback(id, gatewayOk);
      }
      ok := true;
    }

    method UpsertFromGateway(gatewayId: string, merchant: string, d: Delivery) returns (found: Option<nat>)
      requires forall i :: i in disputes ==> i < nextId
      modifies this
      ensures State() == Receive(old(State()), gatewayId, merchant, d)
      ensures found.Some? <==> Addressed(gatewayId, merchant)
      ensures found.Some? ==> found.value in disputes
      ensures found.Some? && Linked(old(State()), gatewayId, merchant) ==> found == old(links)[gatewayId]
    {
      if merchant == ORPHAN || gatewayId == "" {
        return None;
      }
      var id: nat;
      if gatewayId in links && links[gatewayId].Some? && links[gatewayId].value in disputes
         && disputes[links[gatewayId].value].merchant == merchant {
        id := links[gatewayId].value;
      } else {
        var ok;
        ok, id := Open(merchant, KindOf(d.phase), if d.amount > 0 then d.amount else 1);
        if gatewayId in links {
          links := links[gatewayId := Some(id)];
        }
      }
      AdvanceTo(id, merchant, d);
      found := Some(id);
    }

    /** The last step of the upsert, on a dispute of the merchant. */
    method AdvanceTo(id: nat, merchant: string, d: Delivery)
      requires id in disputes && disputes[id].merchant == merchant
      modifies this`disputes, this`events, this`ledger
      ensures State() == Advance(old(State()), id, d) && id in disputes
    {
      var target, cur := LocalTarget(d.status), disputes[id].status;
      if target == cur || Terminal(cur) {
        if cur == Lost {
          var raised := RetryClawback(id, d.gatewayOk);
        }
        return;
      }
      if target !in AllowedTransitions(cur) {
        return;
      }
      var ok := ChangeStatus(id, Some(merchant), target, d.allocation, d.gatewayOk);
    }
  }

  // ----- every run -----

  datatype Op =
    | Open(merchant: string, kind: Kind, amount: int)
    | Change(id: nat, to: Status, allocation: Allocation, gatewayOk: bool)
    | Note(id: nat)
    | Mirror(gatewayId: string)
    | Deliver(gatewayId: string, merchant: string, delivery: Delivery)

  function Step(s: Store, op: Op): Store {
    match op
    case Open(merchant, kind, amount) => OpenDispute(s, merchant, kind, amount)
    case Change(id, to, allocation, gatewayOk) => Transition(s, id, to, allocation, gatewayOk)
    case Note(id) => AddNote(s, id)
    case Mirror(g) => if g in s.links then s else s.(links := s.links[g := None])
    case Deliver(g, merchant, d) => Receive(s, g, merchant, d)
  }

  function Run(s: Store, ops: seq<Op>): Store {
    if ops == [] then s else Step(Run(s, ops[..|ops| - 1]), ops[|ops| - 1])
  }

  /** The status the event log tells. */
  function Replay(events: seq<Event>, id: nat): Option<Status> {
    if events == [] then None
    else
      var e := events[|events| - 1];
      if e.dispute == id && e.to.Some? then e.to else Replay(events[..|events| - 1], id)
  }

  /** Every logged change starts where the log stood and follows the table. */
  ghost predicate Chained(events: seq<Event>, id: nat) {
    forall i :: 0 <= i < |events| && events[i].dispute == id && events[i].to.Some? ==>
      && events[i].from == Replay(events[..i], id)
      && (events[i].from.None? ==> events[i].to == Some(Opened))
      && (events[i].from.Some? ==> events[i].to.value in AllowedTransitions(events[i].from.value))
  }

  function DebitCount(ledger: seq<Debit>, id: nat): nat {
    if ledger == [] then 0
    else DebitCount(ledger[..|ledger| - 1], id) + if ledger[|ledger| - 1].key == id then 1 else 0
  }

  ghost predicate CaseInv(s: Store, id: nat) {
    && (id in s.disputes ==> id < s.nextId)
    && Replay(s.events, id) == (if id in s.disputes then Some(s.disputes[id].status) else None)
    && Chained(s.events, id)
    && DebitCount(s.ledger, id) == (if id in s.disputes && s.disputes[id].status == Lost then 1 else 0)
    && (id in s.disputes ==>
          var d := s.disputes[id];
          && (d.ledgerEntry <==> d.status == Lost)
          && (d.status != Lost ==> d.route == Unset)
          && d.clawbacks == if d.route == Reversed then 1 else 0)
  }

  ghost predicate Inv(s: Store) { forall id :: CaseInv(s, id) }

  lemma LogAppend(events: seq<Event>, e: Event, id: nat)
    ensures Replay(events + [e], id) == if e.dispute == id && e.to.Some? then e.to else Replay(events, id)
    ensures Chained(events, id) && (e.dispute == id && e.to.Some? ==>
              && e.from == Replay(events, id)
              && (e.from.None? ==> e.to == Some(Opened))
              && (e.from.Some? ==> e.to.value in AllowedTransitions(e.from.value)))
            ==> Chained(events + [e], id)
  {
    assert (events + [e])[..|events|] == events;
    assert forall i :: 0 <= i < |events| ==> (events + [e])[..i] == events[..i] && (events + [e])[i] == events[i];
  }

  lemma {:induction false} CountPositive(ledger: seq<Debit>, id: nat)
    ensures DebitCount(ledger, id) > 0 <==> exists i :: 0 <= i < |ledger| && ledger[i].key == id
  {
    if ledger != [] {
      var n := |ledger| - 1;
      CountPositive(ledger[..n], id);
      if exists i :: 0 <= i < n && ledger[..n][i].key == id {
        var i :| 0 <= i < n && ledger[..n][i].key == id;
        assert ledger[i].key == id;
      }
      if exists i :: 0 <= i < |ledger| && ledger[i].key == id {
        var i :| 0 <= i < |ledger| && ledger[i].key == id;
        assert i < n ==> ledger[..n][i].key == id;
      }
    }
  }

  lemma PostDebitCounts(ledger: seq<Debit>, key: nat, amount: int, id: nat)
    requires DebitCount(ledger, key) == 0
    ensures DebitCount(PostDebit(ledger, key, amount), id) == DebitCount(ledger, id) + if id == key then 1 else 0
  {
    CountPositive(ledger, key);
    assert (ledger + [Debit(key, amount)])[..|ledger|] == ledger;
  }

  lemma OpenKeeps(s: Store, merchant: string, kind: Kind, amount: int, id: nat)
    requires Inv(s)
    ensures CaseInv(OpenDispute(s, merchant, kind, amount), id)
  {
    assert CaseInv(s, id) && CaseInv(s, s.nextId);
    LogAppend(s.events, Event(s.nextId, None, Some(Opened)), id);
  }

  lemma TransitionKeepsOwn(s: Store, x: nat, to: Status, allocation: Allocation, gatewayOk: bool)
    requires CaseInv(s, x)
    ensures CaseInv(Transition(s, x, to, allocation, gatewayOk), x)
  {
    if x in s.disputes && to in AllowedTransitions(s.disputes[x].status) {
      LogAppend(s.events, Event(x, Some(s.disputes[x].status), Some(to)), x);
      if to == Lost {
        PostDebitCounts(s.ledger, x, s.disputes[x].amount, x);
      }
    }
  }

  lemma TransitionKeepsOther(s: Store, x: nat, to: Status, allocation: Allocation, gatewayOk: bool, id: nat)
    requires CaseInv(s, id) && CaseInv(s, x) && id != x
    ensures CaseInv(Transition(s, x, to, allocation, gatewayOk), id)
  {
    if x in s.disputes && to in AllowedTransitions(s.disputes[x].status) {
      LogAppend(s.events, Event(x, Some(s.disputes[x].status), Some(to)), id);
      if to == Lost {
        PostDebitCounts(s.ledger, x, s.disputes[x].amount, id);
      }
    }
  }

  lemma TransitionKeeps(s: Store, x: nat, to: Status, allocation: Allocation, gatewayOk: bool, id: nat)
    requires Inv(s)
    ensures CaseInv(Transition(s, x, to, allocation, gatewayOk), id)
  {
    assert CaseInv(s, id) && CaseInv(s, x);
    if id == x {
      TransitionKeepsOwn(s, x, to, allocation, gatewayOk);
    } else {
      TransitionKeepsOther(s, x, to, allocation, gatewayOk, id);
    }
  }

  lemma AdvanceKeeps(s: Store, x: nat, d: Delivery)
    requires Inv(s) && x in s.disputes
    ensures Inv(Advance(s, x, d))
  {
    forall id ensures CaseInv(Advance(s, x, d), id) {
      assert CaseInv(s, id) && CaseInv(s, x);
      TransitionKeeps(s, x, LocalTarget(d.status), d.allocation, d.gatewayOk, id);
    }
  }

  lemma StepKeepsInv(s: Store, op: Op)
    requires Inv(s)
    ensures Inv(Step(s, op))
  {
    match op
    case Open(merchant, kind, amount) =>
      forall id ensures CaseInv(Step(s, op), id) { OpenKeeps(s, merchant, kind, amount, id); }
    case Change(x, to, allocation, gatewayOk) =>
      forall id ensures CaseInv(Step(s, op), id) { TransitionKeeps(s, x, to, allocation, gatewayOk, id); }
    case Note(x) =>
      forall id ensures CaseInv(Step(s, op), id) {
        assert CaseInv(s, id);
        LogAppend(s.events, Event(x, None, None), id);
      }
    case Mirror(g) =>
      forall id ensures CaseInv(Step(s, op), id) { assert CaseInv(s, id); }
    case Deliver(g, merchant, d) => UpsertKeeps(s, g, merchant, d);
  }

  lemma UpsertKeeps(s: Store, gatewayId: string, merchant: string, d: Delivery)
    requires Inv(s)
    ensures Inv(Upsert(s, gatewayId, merchant, d))
  {
    if Linked(s, gatewayId, merchant) {
      AdvanceKeeps(s, s.links[gatewayId].value, d);
    } else {
      var begun := OpenFor(s, merchant, d);
      forall id ensures CaseInv(Link(begun, gatewayId, s.nextId), id) {
        OpenKeeps(s, merchant, KindOf(d.phase), if d.amount > 0 then d.amount else 1, id);
      }
      AdvanceKeeps(Link(begun, gatewayId, s.nextId), s.nextId, d);
    }
  }

  lemma {:induction false} RunKeepsInv(ops: seq<Op>)
    ensures Inv(Run(EMPTY, ops))
  {
    if ops != [] {
      RunKeepsInv(ops[..|ops| - 1]);
      StepKeepsInv(Run(EMPTY, ops[..|ops| - 1]), ops[|ops| - 1]);
    }
  }

  /** After any run of operators and deliveries: a dispute has exactly one chargeback debit if it is
      lost and none otherwise, the event log replays to its status through legal changes only, and
      the merchant's share was clawed back at most once. */
  lemma DebitLogAndClawback(ops: seq<Op>, id: nat)
    requires id in Run(EMPTY, ops).disputes
    ensures var s := Run(EMPTY, ops);
            && DebitCount(s.ledger, id) == (if s.disputes[id].status == Lost then 1 else 0)
            && Replay(s.events, id) == Some(s.disputes[id].status)
            && Chained(s.events, id)
            && s.disputes[id].clawbacks == (if s.disputes[id].route == Reversed then 1 else 0)
            && (s.disputes[id].clawbacks > 0 ==> s.disputes[id].status == Lost)
  {
    RunKeepsInv(ops);
    assert CaseInv(Run(EMPTY, ops), id);
  }

  // ----- deliveries in any order -----

  function Rank(s: Status): nat {
    match s case Opened => 0 case UnderReview => 1 case EvidenceSubmitted => 2 case _ => 3
  }

  /** The reference: the first terminal status ever delivered wins, otherwise the highest rank seen. */
  function Final(cur: Status, targets: seq<Status>): Status
    decreases |targets|
  {
    if Terminal(cur) || targets == [] then cur
    else Final(if Rank(targets[0]) > Rank(cur) then targets[0] else cur, targets[1..])
  }

  function Targets(ds: seq<Delivery>): seq<Status> { seq(|ds|, i requires 0 <= i < |ds| => LocalTarget(ds[i].status)) }

  function DeliverAll(s: Store, gatewayId: string, merchant: string, ds: seq<Delivery>): Store
    decreases |ds|
  {
    if ds == [] then s else DeliverAll(Upsert(s, gatewayId, merchant, ds[0]), gatewayId, merchant, ds[1..])
  }

  lemma AdvanceFollowsRank(s: Store, id: nat, d: Delivery)
    requires id in s.disputes
    ensures var s', cur, t := Advance(s, id, d), s.disputes[id].status, LocalTarget(d.status);
            && s'.disputes.Keys == s.disputes.Keys && s'.links == s.links && s'.nextId == s.nextId
            && s'.disputes[id].status == (if !Terminal(cur) && Rank(t) > Rank(cur) then t else cur)
            && s'.disputes[id].merchant == s.disputes[id].merchant
            && forall x :: x in s.disputes && x != id ==> s'.disputes[x] == s.disputes[x]
  {
  }

  /** Deliveries for a dispute that is already linked: no other dispute changes, none is added, and
      its status is the reference one. */
  lemma {:induction false} DeliveriesReachFinal(s: Store, gatewayId: string, merchant: string, ds: seq<Delivery>)
    requires Linked(s, gatewayId, merchant)
    ensures var s', id := DeliverAll(s, gatewayId, merchant, ds), s.links[gatewayId].value;
            && Linked(s', gatewayId, merchant) && s'.links == s.links
            && s'.disputes.Keys == s.disputes.Keys
            && s'.disputes[id].status == Final(s.disputes[id].status, Targets(ds))
            && forall x :: x in s.disputes && x != id ==> s'.disputes[x] == s.disputes[x]
    decreases |ds|
  {
    if ds != [] {
      var id := s.links[gatewayId].value;
      AdvanceFollowsRank(s, id, ds[0]);
      DeliveriesReachFinal(Upsert(s, gatewayId, merchant, ds[0]), gatewayId, merchant, ds[1..]);
      assert Targets(ds)[1..] == Targets(ds[1..]);
    }
  }

  /** The whole life of a gateway dispute whose mirror row exists: any non-empty sequence of
      deliveries opens one local dispute and leaves it in the reference status. */
  lemma FirstDeliveryOpensOne(s: Store, gatewayId: string, merchant: string, ds: seq<Delivery>)
    requires Inv(s) && ds != [] && gatewayId in s.links && s.links[gatewayId].None?
    ensures var s' := DeliverAll(s, gatewayId, merchant, ds);
            && s'.disputes.Keys == s.disputes.Keys + {s.nextId}
            && gatewayId in s'.links && s'.links[gatewayId] == Some(s.nextId)
            && s'.disputes[s.nextId].status == Final(Opened, Targets(ds))
            && forall x :: x in s.disputes ==> s'.disputes[x] == s.disputes[x]
  {
    assert CaseInv(s, s.nextId);
    var id := s.nextId;
    var begun := Link(OpenFor(s, merchant, ds[0]), gatewayId, id);
    AdvanceFollowsRank(begun, id, ds[0]);
    DeliveriesReachFinal(Advance(begun, id, ds[0]), gatewayId, merchant, ds[1..]);
    assert Targets(ds)[1..] == Targets(ds[1..]);
  }

  /** Without a mirror row a delivery opens a dispute and leaves nothing to find it by. */
  lemma UnmirroredDelivery(s: Store, gatewayId: string, merchant: string, d: Delivery)
    requires gatewayId !in s.links && s.nextId !in s.disputes
    ensures var s' := Upsert(s, gatewayId, merchant, d);
            s'.disputes.Keys == s.disputes.Keys + {s.nextId} && s'.links == s.links && s'.nextId == s.nextId + 1
  {
    AdvanceFollowsRank(OpenFor(s, merchant, d), s.nextId, d);
  }

  /** The mirror row is what makes deliveries idempotent: of two deliveries for a dispute not known
      yet, the second finds the first one's row exactly when the mirror row is there to be stamped. */
  lemma OneLocalDisputeIffMirrored(s: Store, gatewayId: string, merchant: string, d: Delivery, d': Delivery)
    requires Inv(s) && (gatewayId in s.links ==> s.links[gatewayId].None?)
    ensures DeliverAll(s, gatewayId, merchant, [d, d']).disputes.Keys == s.disputes.Keys + {s.nextId} <==>
        gatewayId in s.links
  {
    assert CaseInv(s, s.nextId) && CaseInv(s, s.nextId + 1);
    if gatewayId in s.links {
      FirstDeliveryOpensOne(s, gatewayId, merchant, [d, d']);
    } else {
      var s1 := Upsert(s, gatewayId, merchant, d);
      UnmirroredDelivery(s, gatewayId, merchant, d);
      UnmirroredDelivery(s1, gatewayId, merchant, d');
      TwoDeliveries(s, gatewayId, merchant, d, d');
      assert s.nextId + 1 in Upsert(s1, gatewayId, merchant, d').disputes.Keys;
    }
  }

  lemma TwoDeliveries(s: Store, gatewayId: string, merchant: string, d: Delivery, d': Delivery)
    ensures DeliverAll(s, gatewayId, merchant, [d, d'])
        == Upsert(Upsert(s, gatewayId, merchant, d), gatewayId, merchant, d')
  {
    var s1 := Upsert(s, gatewayId, merchant, d);
    assert [d, d'][1..] == [d'] && [d'][1..] == [];
    assert DeliverAll(s, gatewayId, merchant, [d, d']) == DeliverAll(s1, gatewayId, merchant, [d']);
    assert DeliverAll(s1, gatewayId, merchant, [d'])
      == DeliverAll(Upsert(s1, gatewayId, merchant, d'), gatewayId, merchant, []);
  }

  // ----- the reference does not depend on order or repetition -----

  ghost predicate TerminalsAgree(targets: seq<Status>) {
    forall a, b :: a in targets && b in targets && Terminal(a) && Terminal(b) ==> a == b
  }

  lemma {:induction false} FinalMeaning(cur: Status, targets: seq<Status>)
    requires !Terminal(cur)
    ensures var f := Final(cur, targets);
            && (f in targets || f == cur)
            && (Terminal(f) <==> exists t :: t in targets && Terminal(t))
            && Rank(cur) <= Rank(f)
            && (!Terminal(f) ==> forall t :: t in targets ==> Rank(t) <= Rank(f))
    decreases |targets|
  {
    if targets != [] {
      var next := if Rank(targets[0]) > Rank(cur) then targets[0] else cur;
      if !Terminal(next) {
        FinalMeaning(next, targets[1..]);
      } else {
        assert targets[0] in targets;
      }
      assert targets == [targets[0]] + targets[1..];
    }
  }

  lemma RankIsInjective(a: Status, b: Status)
    requires !Terminal(a) && !Terminal(b) && Rank(a) == Rank(b)
    ensures a == b
  {
  }

  /** Deliveries may be repeated and reordered at will: two histories that mention the same statuses,
      whose terminal statuses agree, end in the same status. It is the terminal one if there is one
      and the highest rank mentioned otherwise. */
  lemma OrderAndRepetitionDoNotMatter(xs: seq<Status>, ys: seq<Status>)
    requires forall t :: t in xs <==> t in ys
    requires TerminalsAgree(xs)
    ensures Final(Opened, xs) == Final(Opened, ys)
  {
    FinalMeaning(Opened, xs);
    FinalMeaning(Opened, ys);
    var f, g := Final(Opened, xs), Final(Opened, ys);
    if !Terminal(f) {
      assert !Terminal(g);
      assert Rank(f) == Rank(g);
      RankIsInjective(f, g);
    }
  }

  /** The agreement is needed: with two different terminal statuses the earlier delivery decides. */
  lemma DisagreeingTerminalsDependOnOrder(a: Status, b: Status)
    requires Terminal(a) && Terminal(b)
    ensures Final(Opened, [a, b]) == Final(Opened, [b, a]) <==> a == b
  {
    assert [a, b][1..] == [b] && [b, a][1..] == [a];
  }
}
