/** The builders that turn orders, payments, split payments and discounts into journal entries. */
module JournalBuilders {

  import opened Basics
  import opened Journal
  import AccountLedger

  const RECEIVABLE := "ACCOUNTS_RECEIVABLE"

  /** A payment method in lower case, and whether it goes through the payment gateway. */
  datatype Tender = Tender(name: string, online: bool)

  /** A split payment is posted part by part. */
  datatype Kind = OrderCreated | PaymentReceived(tender: Tender) | SplitPart(tender: Tender) | DiscountGiven

  datatype Call = Call(kind: Kind, restaurant: nat, branch: Option<nat>, id: string, amount: int, today: int)

  /** The account that receives the money; it is never the receivable itself. */
  function PaymentAccount(tender: Tender): (code: string)
    ensures code != RECEIVABLE
  {
    if tender.online then "PG_CLEARING"
    else if tender.name == "upi" then "UPI"
    else if tender.name in ["bank", "bank_transfer", "neft", "rtgs"] then "BANK"
    else if tender.name in ["card", "credit_card", "debit_card"] then "CARD"
    else "CASH"
  }

  function KeyOf(call: Call): Key {
    match call.kind
    case OrderCreated => Key(call.restaurant, Order, Given(call.id))
    case PaymentReceived(_) => Key(call.restaurant, Payment, Given(call.id))
    case SplitPart(_) => Key(call.restaurant, Payment, Given("pay_" + call.id))
    case DiscountGiven => Key(call.restaurant, Discount, Given("disc_" + call.id))
  }

  /** The account that stands against the receivable. */
  function OtherAccount(kind: Kind): (code: string)
    ensures code != RECEIVABLE
  {
    match kind
    case OrderCreated => "FOOD_SALES"
    case PaymentReceived(tender) => PaymentAccount(tender)
    case SplitPart(tender) => PaymentAccount(tender)
    case DiscountGiven => "DISCOUNT_EXPENSE"
  }

  function LinesOf(call: Call): seq<CodedLine> {
    if call.kind.OrderCreated? then [CodedLine(RECEIVABLE, call.amount, 0), CodedLine(OtherAccount(call.kind), 0, call.amount)]
    else [CodedLine(OtherAccount(call.kind), call.amount, 0), CodedLine(RECEIVABLE, 0, call.amount)]
  }

  function RequestOf(call: Call): Request { Request(KeyOf(call), call.branch, call.today, LinesOf(call)) }

  /** An amount that is not positive posts nothing. */
  function Record(b: Books, call: Call, chart: Chart): Books {
    if call.amount <= 0 then b else Post(b, RequestOf(call), chart)
  }

  function RecordAll(b: Books, calls: seq<Call>, chart: Chart): Books {
    if calls == [] then b else Record(RecordAll(b, calls[..|calls| - 1], chart), calls[|calls| - 1], chart)
  }

  // ----- the methods -----

  method RecordCall(engine: AccountingEngine, call: Call, chart: Chart) returns (outcome: Outcome)
    modifies engine`entries
    ensures engine.Value() == Record(old(engine.Value()), call, chart)
    ensures outcome == OutcomeOf(old(engine.Value()), call, chart)
  {
    if call.amount <= 0 {
      return Skipped;
    }
    outcome := engine.CreateJournalEntry(RequestOf(call), chart);
  }

  datatype Split = Split(tender: Tender, amount: int, payment: Option<string>)

  function Digits(n: nat): string {
    var d := ["0", "1", "2", "3", "4", "5", "6", "7", "8", "9"][n % 10];
    if n < 10 then d else Digits(n / 10) + d
  }

  function PartOf(order: string, splits: seq<Split>, i: nat, restaurant: nat, branch: Option<nat>, today: int): Call
    requires i < |splits|
  {
    var id := if splits[i].payment.Some? then splits[i].payment.value else "split_" + order + "_" + Digits(i);
    Call(SplitPart(splits[i].tender), restaurant, branch, id, splits[i].amount, today)
  }

  function PartsOf(order: string, splits: seq<Split>, restaurant: nat, branch: Option<nat>, today: int): seq<Call> {
    seq(|splits|, i requires 0 <= i < |splits| => PartOf(order, splits, i, restaurant, branch, today))
  }

  function OutcomeOf(b: Books, call: Call, chart: Chart): Outcome {
    if call.amount <= 0 then Skipped else Verdict(b, RequestOf(call), chart)
  }

  /** The entries the calls were answered with, new or found. */
  function IdsOf(b: Books, calls: seq<Call>, chart: Chart): seq<nat> {
    if calls == [] then []
    else
      var n := |calls| - 1;
      var outcome := OutcomeOf(RecordAll(b, calls[..n], chart), calls[n], chart);
      IdsOf(b, calls[..n], chart) + if outcome.Posted? || outcome.Existing? then [outcome.id] else []
  }

  /** Each part is a transaction of its own: a refused part ends the call and keeps the parts before
      it. */
  method RecordSplitPayment(engine: AccountingEngine, order: string, splits: seq<Split>, restaurant: nat,
      branch: Option<nat>, today: int, chart: Chart)
    returns (ids: seq<nat>, done: nat, refused: bool)
    modifies engine`entries
    ensures done <= |splits| && (refused || done == |splits| > 0)
    ensures engine.Value()
        == RecordAll(old(engine.Value()), PartsOf(order, splits, restaurant, branch, today)[..done], chart)
    ensures ids == IdsOf(old(engine.Value()), PartsOf(order, splits, restaurant, branch, today)[..done], chart)
  {
    ids, done, refused := RecordUntilRefused(engine, PartsOf(order, splits, restaurant, branch, today), chart);
    refused := refused || splits == [];
  }

  method RecordUntilRefused(engine: AccountingEngine, parts: seq<Call>, chart: Chart)
    returns (ids: seq<nat>, done: nat, refused: bool)
    modifies engine`entries
    ensures done <= |parts| && (refused || done == |parts|)
    ensures refused ==> done < |parts| && OutcomeOf(engine.Value(), parts[done], chart).Refused?
    ensures engine.Value() == RecordAll(old(engine.Value()), parts[..done], chart)
    ensures ids == IdsOf(old(engine.Value()), parts[..done], chart)
  {
    ids, refused := [], false;
    for i := 0 to |parts|
      invariant engine.Value() == RecordAll(old(engine.Value()), parts[..i], chart)
      invariant ids == IdsOf(old(engine.Value()), parts[..i], chart)
    {
      assert parts[..i + 1][..i] == parts[..i];
      var outcome := RecordCall(engine, parts[i], chart);
      if outcome.Refused? {
        return ids, i, true;
      }
      if outcome.Posted? || outcome.Existing? {
        ids := ids + [outcome.id];
      }
    }
    done := |parts|;
  }

  // ----- first accepted occurrences -----

  /** What a call needs besides a new reference. */
  predicate Acceptable(periods: map<Period, Status>, call: Call, chart: Chart) {
    && call.amount > 0
    && KeyOf(call).refId != Given("")
    && !LockedOn(periods, call.restaurant, call.today)
    && Resolves(chart, call.restaurant, LinesOf(call))
  }

  predicate SeenBefore(periods: map<Period, Status>, earlier: seq<Call>, key: Key, chart: Chart) {
    exists i :: 0 <= i < |earlier| && KeyOf(earlier[i]) == key && Acceptable(periods, earlier[i], chart)
  }

  /** The first acceptable call for each reference that is not in the journal already. */
  function FirstAccepted(b: Books, calls: seq<Call>, chart: Chart): seq<Call> {
    if calls == [] then []
    else
      var n := |calls| - 1;
      FirstAccepted(b, calls[..n], chart)
      + if Acceptable(b.periods, calls[n], chart) && !HasKey(b.entries, KeyOf(calls[n]))
           && !SeenBefore(b.periods, calls[..n], KeyOf(calls[n]), chart)
        then [calls[n]] else []
  }

  predicate AllResolve(calls: seq<Call>, chart: Chart) {
    forall i :: 0 <= i < |calls| ==> Resolves(chart, calls[i].restaurant, LinesOf(calls[i]))
  }

  function EntriesFor(calls: seq<Call>, chart: Chart): seq<Entry>
    requires AllResolve(calls, chart)
  {
    seq(|calls|, i requires 0 <= i < |calls| => EntryFor(RequestOf(calls[i]), chart))
  }

  lemma {:induction false} CallIsWellFormed(call: Call)
    requires call.amount > 0
    ensures RequestError(RequestOf(call)) == None
  {
    var lines := LinesOf(call);
    TwoLines(lines[0], lines[1]);
    assert lines == [lines[0], lines[1]];
  }

  lemma {:induction false} TwoLines(a: CodedLine, b: CodedLine)
    ensures CodedDebits([a, b]) == a.debit + b.debit
    ensures CodedCredits([a, b]) == a.credit + b.credit
    ensures FirstLineError([a, b]) == if LineError(a).Some? then LineError(a) else LineError(b)
  {
    assert [a, b][..1] == [a] && [a][..0] == [];
    assert CodedDebits([]) == 0 && CodedCredits([]) == 0 && FirstLineError([]) == None;
    assert CodedDebits([a]) == a.debit;
    assert CodedCredits([a]) == a.credit;
    assert FirstLineError([a]) == LineError(a);
  }

  /** One call: it posts exactly when it is acceptable and its reference is new. */
  lemma {:induction false} RecordOne(b: Books, call: Call, chart: Chart)
    ensures Acceptable(b.periods, call, chart) && !HasKey(b.entries, KeyOf(call)) ==>
              Record(b, call, chart) == b.(entries := b.entries + [EntryFor(RequestOf(call), chart)])
    ensures !(Acceptable(b.periods, call, chart) && !HasKey(b.entries, KeyOf(call))) ==> Record(b, call, chart) == b
  {
    if call.amount > 0 { CallIsWellFormed(call); }
  }

  lemma HasKeyAppend(entries: seq<Entry>, e: Entry, key: Key)
    ensures HasKey(entries + [e], key) <==> HasKey(entries, key) || e.key == key
  {
    assert (entries + [e])[|entries|] == e;
    if HasKey(entries, key) {
      var i :| 0 <= i < |entries| && entries[i].key == key;
      assert (entries + [e])[i].key == key;
    }
  }

  lemma SeenSnoc(periods: map<Period, Status>, calls: seq<Call>, key: Key, chart: Chart)
    requires calls != []
    ensures var n := |calls| - 1;
            SeenBefore(periods, calls, key, chart)
            <==> SeenBefore(periods, calls[..n], key, chart)
                 || (KeyOf(calls[n]) == key && Acceptable(periods, calls[n], chart))
  {
    var n := |calls| - 1;
    var front := calls[..n];
    assert forall i :: 0 <= i < n ==> front[i] == calls[i];
    if SeenBefore(periods, front, key, chart) {
      var i :| 0 <= i < |front| && KeyOf(front[i]) == key && Acceptable(periods, front[i], chart);
      assert KeyOf(calls[i]) == key;
    }
  }

  lemma {:induction false} KeysAfter(b: Books, calls: seq<Call>, chart: Chart, key: Key)
    ensures RecordAll(b, calls, chart).periods == b.periods
    ensures HasKey(RecordAll(b, calls, chart).entries, key) <==>
        HasKey(b.entries, key) || SeenBefore(b.periods, calls, key, chart)
  {
    if calls != [] {
      var n := |calls| - 1;
      KeysAfter(b, calls[..n], chart, key);
      var c := RecordAll(b, calls[..n], chart);
      RecordOne(c, calls[n], chart);
      SeenSnoc(b.periods, calls, key, chart);
      if Acceptable(b.periods, calls[n], chart) {
        HasKeyAppend(c.entries, EntryFor(RequestOf(calls[n]), chart), key);
      }
    }
  }

  lemma {:induction false} KeptAreAcceptable(b: Books, calls: seq<Call>, chart: Chart)
    ensures forall i :: 0 <= i < |FirstAccepted(b, calls, chart)| ==>
        Acceptable(b.periods, FirstAccepted(b, calls, chart)[i], chart)
    ensures AllResolve(FirstAccepted(b, calls, chart), chart)
  {
    if calls != [] { KeptAreAcceptable(b, calls[..|calls| - 1], chart); }
  }

  /** For every sequence of builder calls, repeats included, the journal grows by one entry for each
      first accepted occurrence of a reference, in their order, and by nothing else. */
  lemma {:induction false} JournalIsFirstAccepted(b: Books, calls: seq<Call>, chart: Chart)
    ensures AllResolve(FirstAccepted(b, calls, chart), chart)
    ensures RecordAll(b, calls, chart) == b.(entries := b.entries + EntriesFor(FirstAccepted(b, calls, chart), chart))
  {
    KeptAreAcceptable(b, calls, chart);
    if calls == [] {
      assert b.entries + [] == b.entries;
    } else {
      var n := |calls| - 1;
      var kept := FirstAccepted(b, calls[..n], chart);
      JournalIsFirstAccepted(b, calls[..n], chart);
      KeysAfter(b, calls[..n], chart, KeyOf(calls[n]));
      RecordOne(RecordAll(b, calls[..n], chart), calls[n], chart);
      if FirstAccepted(b, calls, chart) == kept + [calls[n]] {
        OneMoreEntry(b.entries, kept, calls[n], chart);
      } else {
        assert FirstAccepted(b, calls, chart) == kept;
      }
    }
  }

  lemma {:induction false} OneMoreEntry(entries: seq<Entry>, kept: seq<Call>, call: Call, chart: Chart)
    requires AllResolve(kept, chart) && AllResolve(kept + [call], chart)
    ensures Resolves(chart, call.restaurant, LinesOf(call))
    ensures entries + EntriesFor(kept + [call], chart)
        == entries + EntriesFor(kept, chart) + [EntryFor(RequestOf(call), chart)]
  {
    assert (kept + [call])[|kept|] == call;
  }

  /** Delivering a whole history again, in any order and number, changes nothing. */
  lemma {:induction false} ReplayChangesNothing(b: Books, calls: seq<Call>, again: seq<Call>, chart: Chart)
    requires forall i :: 0 <= i < |again| ==> again[i] in calls
    ensures RecordAll(RecordAll(b, calls, chart), again, chart) == RecordAll(b, calls, chart)
  {
    if again != [] {
      var n := |again| - 1;
      ReplayChangesNothing(b, calls, again[..n], chart);
      var c, call := RecordAll(b, calls, chart), again[n];
      KeysAfter(b, calls, chart, KeyOf(call));
      assert call in calls;
      RecordOne(c, call, chart);
    }
  }

  // ----- the receivable -----

  /** Account `ar` is the receivable of restaurant `r`, and nothing else resolves to it. */
  ghost predicate IsReceivable(chart: Chart, r: nat, ar: nat) {
    forall k :: k in chart ==> (chart[k] == ar <==> k == (r, RECEIVABLE))
  }

  /** Orders count for the receivable, everything else against it. */
  function Owed(calls: seq<Call>, r: nat): int {
    Total(calls, r, Orders) - Total(calls, r, Payments) - Total(calls, r, Splits) - Total(calls, r, Discounts)
  }

  datatype Tag = Orders | Payments | Splits | Discounts

  function TagOf(kind: Kind): Tag {
    match kind
    case OrderCreated => Orders
    case PaymentReceived(_) => Payments
    case SplitPart(_) => Splits
    case DiscountGiven => Discounts
  }

  function Total(calls: seq<Call>, r: nat, tag: Tag): int {
    if calls == [] then 0
    else
      var call := calls[|calls| - 1];
      Total(calls[..|calls| - 1], r, tag) + if call.restaurant == r && TagOf(call.kind) == tag then call.amount else 0
  }

  function Effect(call: Call, r: nat): int {
    if call.restaurant != r then 0 else if call.kind.OrderCreated? then call.amount else -call.amount
  }

  lemma {:induction false} EverythingAppend(entries: seq<Entry>, e: Entry, account: nat)
    ensures AccountLedger.Everything(entries + [e], account)
        == AccountLedger.Everything(entries, account) + Net(e.lines, account)
  {
    assert (entries + [e])[..|entries|] == entries;
  }

  lemma {:induction false} CallMovesReceivable(call: Call, chart: Chart, r: nat, ar: nat)
    requires IsReceivable(chart, r, ar) && Resolves(chart, call.restaurant, LinesOf(call))
    ensures Net(EntryFor(RequestOf(call), chart).lines, ar)
         == Effect(call, r)
  {
    var coded := LinesOf(call);
    var lines := EntryFor(RequestOf(call), chart).lines;
    assert lines[..1][..0] == [] && |lines| == 2;
    assert Net(lines[..1], ar) == if lines[0].account == ar then lines[0].debit - lines[0].credit else 0;
    assert (call.restaurant, coded[0].code) in chart && (call.restaurant, coded[1].code) in chart;
  }

  /** Entries `more` that move the receivable as the calls `kept` say. */
  lemma {:induction false} EntriesMoveReceivable(entries: seq<Entry>, more: seq<Entry>, kept: seq<Call>, r: nat,
      ar: nat)
    requires |more| == |kept| && forall i :: 0 <= i < |kept| ==> Net(more[i].lines, ar) == Effect(kept[i], r)
    ensures AccountLedger.Everything(entries + more, ar) == AccountLedger.Everything(entries, ar) + Owed(kept, r)
  {
    if kept == [] {
      assert entries + more == entries;
    } else {
      var n := |kept| - 1;
      assert entries + more == entries + more[..n] + [more[n]];
      EntriesMoveReceivable(entries, more[..n], kept[..n], r, ar);
      EverythingAppend(entries + more[..n], more[n], ar);
      OwedSnoc(kept[..n], kept[n], r);
      assert kept == kept[..n] + [kept[n]];
    }
  }

  /** The receivable of a restaurant after any sequence of builder calls: what it was before, plus the
      orders, less the payments, the split parts and the discounts, each reference counted once. */
  lemma {:induction false} ReceivableBalance(b: Books, calls: seq<Call>, chart: Chart, r: nat, ar: nat)
    requires IsReceivable(chart, r, ar)
    ensures AccountLedger.Everything(RecordAll(b, calls, chart).entries, ar)
         == AccountLedger.Everything(b.entries, ar) + Owed(FirstAccepted(b, calls, chart), r)
  {
    JournalIsFirstAccepted(b, calls, chart);
    var kept := FirstAccepted(b, calls, chart);
    forall i | 0 <= i < |kept| ensures Net(EntriesFor(kept, chart)[i].lines, ar) == Effect(kept[i], r) {
      CallMovesReceivable(kept[i], chart, r, ar);
    }
    EntriesMoveReceivable(b.entries, EntriesFor(kept, chart), kept, r, ar);
  }

  lemma {:induction false} OwedSnoc(calls: seq<Call>, call: Call, r: nat)
    ensures Owed(calls + [call], r) == Owed(calls, r) + Effect(call, r)
  {
    assert (calls + [call])[..|calls|] == calls;
  }

  /** And every entry the builders post balances, on its own reference. */
  lemma {:induction false} BuildersKeepInv(b: Books, calls: seq<Call>, chart: Chart)
    requires Inv(b)
    ensures Inv(RecordAll(b, calls, chart))
  {
    if calls != [] {
      var n := |calls| - 1;
      BuildersKeepInv(b, calls[..n], chart);
      if calls[n].amount > 0 {
        PostKeepsInv(RecordAll(b, calls[..n], chart), RequestOf(calls[n]), chart);
      }
    }
  }
}
