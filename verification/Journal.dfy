/** The double-entry journal: idempotent balanced posting, reversal, period locks and the account
    ledger. Amounts are integer paise, dates are day numbers, and an entry's id is its position. */
module Journal {

  import opened Basics

  datatype Error = BadType | NoLines | Negative | BothSides | EmptyLine | Unbalanced | PeriodLocked | UnknownAccount
                 | NotFound | AlreadyReversed | DuplicateReference

  datatype RefType = Order | Payment | Discount | Reversal | Listed(name: string) | Unlisted

  /** `Rev(i)` is the reference a reversal of entry `i` carries. */
  datatype RefId = Given(text: string) | Rev(entry: nat)

  datatype Key = Key(restaurant: nat, refType: RefType, refId: RefId)

  /** A line of a request names an account by its logical code, a posted line by its id. */
  datatype CodedLine = CodedLine(code: string, debit: int, credit: int)

  datatype Line = Line(account: nat, debit: int, credit: int)

  /** An entry is marked reversed exactly when `reversedBy` is set. */
  datatype Entry = Entry(key: Key, branch: Option<nat>, date: int, lines: seq<Line>, reversedBy: Option<nat>,
                         reversedOf: Option<nat>)

  datatype Status = Open | Closed | Locked

  datatype Period = Period(restaurant: nat, first: int, last: int)

  datatype Books = Books(entries: seq<Entry>, periods: map<Period, Status>)

  /** The active account each code of a restaurant resolves to. */
  type Chart = map<(nat, string), nat>

  datatype Request = Request(key: Key, branch: Option<nat>, date: int, lines: seq<CodedLine>)

  datatype Outcome = Posted(id: nat) | Existing(id: nat) | Skipped | Refused(error: Error)

  // ----- posting -----

  function LineError(line: CodedLine): Option<Error> {
    if line.debit < 0 || line.credit < 0 then Some(Negative)
    else if line.debit > 0 && line.credit > 0 then Some(BothSides)
    else if line.debit == 0 && line.credit == 0 then Some(EmptyLine)
    else None
  }

  function FirstLineError(lines: seq<CodedLine>): Option<Error> {
    if lines == [] then None
    else
      var earlier := FirstLineError(lines[..|lines| - 1]);
      if earlier.Some? then earlier else LineError(lines[|lines| - 1])
  }

  function CodedDebits(lines: seq<CodedLine>): int {
    if lines == [] then 0 else CodedDebits(lines[..|lines| - 1]) + lines[|lines| - 1].debit
  }

  function CodedCredits(lines: seq<CodedLine>): int {
    if lines == [] then 0 else CodedCredits(lines[..|lines| - 1]) + lines[|lines| - 1].credit
  }

  predicate Covers(p: Period, restaurant: nat, date: int) { p.restaurant == restaurant && p.first <= date <= p.last }

  predicate LockedOn(periods: map<Period, Status>, restaurant: nat, date: int) {
    exists p | p in periods :: periods[p] != Open && Covers(p, restaurant, date)
  }

  predicate HasKey(entries: seq<Entry>, key: Key) { exists i :: 0 <= i < |entries| && entries[i].key == key }

  function Find(entries: seq<Entry>, key: Key): (i: nat)
    requires HasKey(entries, key)
    ensures i < |entries| && entries[i].key == key
  {
    var n := |entries| - 1;
    if entries[n].key == key then n
    else
      assert exists i :: 0 <= i < |entries[..n]| && entries[..n][i].key == key by {
        var i :| 0 <= i < |entries| && entries[i].key == key;
        assert entries[..n][i].key == key;
      }
      Find(entries[..n], key)
  }

  predicate Resolves(chart: Chart, restaurant: nat, lines: seq<CodedLine>) {
    forall i :: 0 <= i < |lines| ==> (restaurant, lines[i].code) in chart
  }

  function Resolved(chart: Chart, restaurant: nat, lines: seq<CodedLine>): seq<Line>
    requires Resolves(chart, restaurant, lines)
  {
    seq(|lines|, i requires 0 <= i < |lines| =>
      Line(chart[(restaurant, lines[i].code)], lines[i].debit, lines[i].credit))
  }

  /** What the request itself gets wrong, in the order it is checked. */
  function RequestError(req: Request): Option<Error> {
    if req.key.refType == Unlisted then Some(BadType)
    else if req.lines == [] then Some(NoLines)
    else if FirstLineError(req.lines).Some? then FirstLineError(req.lines)
    else if CodedDebits(req.lines) != CodedCredits(req.lines) then Some(Unbalanced)
    else None
  }

  function EntryFor(req: Request, chart: Chart): Entry
    requires Resolves(chart, req.key.restaurant, req.lines)
  {
    Entry(req.key, req.branch, req.date, Resolved(chart, req.key.restaurant, req.lines), None, None)
  }

  function Verdict(b: Books, req: Request, chart: Chart): Outcome {
    if req.key.refId == Given("") then Skipped
    else if RequestError(req).Some? then Refused(RequestError(req).value)
    else if LockedOn(b.periods, req.key.restaurant, req.date) then Refused(PeriodLocked)
    else if HasKey(b.entries, req.key) then Existing(Find(b.entries, req.key))
    else if !Resolves(chart, req.key.restaurant, req.lines) then Refused(UnknownAccount)
    else Posted(|b.entries|)
  }

  function Post(b: Books, req: Request, chart: Chart): Books {
    if Verdict(b, req, chart).Posted? then b.(entries := b.entries + [EntryFor(req, chart)]) else b
  }

  // ----- reversal -----

  function Swapped(lines: seq<Line>): seq<Line> {
    seq(|lines|, i requires 0 <= i < |lines| => Line(lines[i].account, lines[i].credit, lines[i].debit))
  }

  function ReversalKey(entries: seq<Entry>, id: nat): Key
    requires id < |entries|
  {
    Key(entries[id].key.restaurant, Reversal, Rev(id))
  }

  /** The check looks at the period of the original's date, the insertion at that of today. */
  function ReversalVerdict(b: Books, id: nat, today: int): Outcome {
    if id >= |b.entries| then Refused(NotFound)
    else if b.entries[id].reversedBy.Some? then Refused(AlreadyReversed)
    else if LockedOn(b.periods, b.entries[id].key.restaurant, b.entries[id].date) then Refused(PeriodLocked)
    else if b.entries[id].lines == [] then Refused(NoLines)
    else if LockedOn(b.periods, b.entries[id].key.restaurant, today) then Refused(PeriodLocked)
    else if HasKey(b.entries, ReversalKey(b.entries, id)) then Refused(DuplicateReference)
    else Posted(|b.entries|)
  }

  function ReversalOf(entries: seq<Entry>, id: nat, today: int): Entry
    requires id < |entries|
  {
    Entry(ReversalKey(entries, id), entries[id].branch, today, Swapped(entries[id].lines), None, Some(id))
  }

  function Reverse(b: Books, id: nat, today: int): Books {
    if !ReversalVerdict(b, id, today).Posted? then b
    else
      var n := |b.entries|;
      b.(entries := b.entries[id := b.entries[id].(reversedBy := Some(n))] + [ReversalOf(b.entries, id, today)])
  }

  // ----- periods -----

  function ClosePeriod(b: Books, p: Period): Books {
    if p in b.periods && b.periods[p] != Open then b else b.(periods := b.periods[p := Closed])
  }

  function ReopenPeriod(b: Books, p: Period): Books {
    if p in b.periods && b.periods[p] == Closed then b.(periods := b.periods[p := Open]) else b
  }

  // ----- the engine -----

  /** The first fault of a line, or both totals. */
  method CheckLines(lines: seq<CodedLine>) returns (fault: Option<Error>, debit: int, credit: int)
    ensures fault == FirstLineError(lines)
    ensures fault.None? ==> debit == CodedDebits(lines) && credit == CodedCredits(lines)
  {
    debit, credit := 0, 0;
    for i := 0 to |lines|
      invariant FirstLineError(lines[..i]).None?
      invariant debit == CodedDebits(lines[..i]) && credit == CodedCredits(lines[..i])
    {
      assert lines[..i + 1][..i] == lines[..i];
      fault := LineError(lines[i]);
      if fault.Some? {
        ErrorStays(lines, i + 1);
        return;
      }
      debit, credit := debit + lines[i].debit, credit + lines[i].credit;
    }
    assert lines[..|lines|] == lines;
    fault := None;
  }

  /** The lines with account ids, unless some code has no active account. */
  method ResolveLines(restaurant: nat, lines: seq<CodedLine>, chart: Chart) returns (r: Option<seq<Line>>)
    ensures r.Some? <==> Resolves(chart, restaurant, lines)
    ensures r.Some? ==> r.value == Resolved(chart, restaurant, lines)
  {
    var done: seq<Line> := [];
    for i := 0 to |lines|
      invariant Resolves(chart, restaurant, lines[..i]) && done == Resolved(chart, restaurant, lines[..i])
    {
      if (restaurant, lines[i].code) !in chart {
        return None;
      }
      done := done + [Line(chart[(restaurant, lines[i].code)], lines[i].debit, lines[i].credit)];
    }
    assert lines[..|lines|] == lines;
    r := Some(done);
  }

  class AccountingEngine {
    var entries: seq<Entry>
    var periods: map<Period, Status>

    function Value(): Books
      reads this
    {
      Books(entries, periods)
    }

    constructor ()
      ensures Value() == Books([], map[])
    {
      entries, periods := [], map[];
    }

    method CreateJournalEntry(req: Request, chart: Chart) returns (outcome: Outcome)
      modifies this`entries
      ensures Value() == Post(old(Value()), req, chart)
      ensures outcome == Verdict(old(Value()), req, chart)
    {
      if req.key.refId == Given("") {
        return Skipped;
      }
      if req.key.refType == Unlisted {
        return Refused(BadType);
      }
      if req.lines == [] {
        return Refused(NoLines);
      }
      var fault, debit, credit := CheckLines(req.lines);
      if fault.Some? {
        return Refused(fault.value);
      }
      if debit != credit {
        return Refused(Unbalanced);
      }
      if LockedOn(periods, req.key.restaurant, req.date) {
        return Refused(PeriodLocked);
      }
      if HasKey(entries, req.key) {
        return Existing(Find(entries, req.key));
      }
      var lines := ResolveLines(req.key.restaurant, req.lines, chart);
      if lines.None? {
        return Refused(UnknownAccount);
      }
      entries := entries + [Entry(req.key, req.branch, req.date, lines.value, None, None)];
      outcome := Posted(|entries| - 1);
    }

    method ReverseEntry(id: nat, today: int) returns (outcome: Outcome)
      modifies this`entries
      ensures Value() == Reverse(old(Value()), id, today)
      ensures outcome == ReversalVerdict(old(Value()), id, today)
    {
      if id >= |entries| {
        return Refused(NotFound);
      }
      var entry := entries[id];
      if entry.reversedBy.Some? {
        return Refused(AlreadyReversed);
      }
      if LockedOn(periods, entry.key.restaurant, entry.date) {
        return Refused(PeriodLocked);
      }
      if entry.lines == [] {
        return Refused(NoLines);
      }
      var lines: seq<Line> := [];
      for i := 0 to |entry.lines|
        invariant lines == Swapped(entry.lines)[..i]
      {
        lines := lines + [Line(entry.lines[i].account, entry.lines[i].credit, entry.lines[i].debit)];
      }
      var key := Key(entry.key.restaurant, Reversal, Rev(id));
      if LockedOn(periods, entry.key.restaurant, today) {
        return Refused(PeriodLocked);
      }
      if HasKey(entries, key) {
        return Refused(DuplicateReference);
      }
      var reversal := |entries|;
      entries := entries + [Entry(key, entry.branch, today, lines, None, None)];
      entries := entries[id := entries[id].(reversedBy := Some(reversal))];
      entries := entries[reversal := entries[reversal].(reversedOf := Some(id))];
      assert lines == Swapped(entry.lines);
      assert entries == Reverse(old(Value()), id, today).entries;
      outcome := Posted(reversal);
    }

    method Close(p: Period) returns (status: Status)
      modifies this`periods
      ensures Value() == ClosePeriod(old(Value()), p)
      ensures p in periods && periods[p] == status != Open
    {
      if p in periods && periods[p] != Open {
        return periods[p];
      }
      periods := periods[p := Closed];
      status := Closed;
    }

    method Reopen(p: Period) returns (ok: bool)
      modifies this`periods
      ensures Value() == ReopenPeriod(old(Value()), p)
      ensures ok <==> p in periods && periods[p] == Open
    {
      if p !in periods || periods[p] == Locked {
        return false;
      }
      if periods[p] == Closed {
        periods := periods[p := Open];
      }
      ok := true;
    }
  }

  lemma {:induction false} ErrorStays(lines: seq<CodedLine>, i: nat)
    requires i <= |lines| && FirstLineError(lines[..i]).Some?
    ensures FirstLineError(lines) == FirstLineError(lines[..i])
    decreases |lines|
  {
    if i < |lines| {
      var n := |lines| - 1;
      assert lines[..n][..i] == lines[..i];
      ErrorStays(lines[..n], i);
    } else {
      assert lines[..i] == lines;
    }
  }

  // ----- every run -----

  datatype Op =
    | Create(req: Request, chart: Chart)
    | ReverseOp(id: nat, today: int)
    | CloseOp(period: Period)
    | ReopenOp(period: Period)

  function Step(b: Books, op: Op): Books {
    match op
    case Create(req, chart) => Post(b, req, chart)
    case ReverseOp(id, today) => Reverse(b, id, today)
    case CloseOp(p) => ClosePeriod(b, p)
    case ReopenOp(p) => ReopenPeriod(b, p)
  }

  function Run(b: Books, ops: seq<Op>): Books {
    if ops == [] then b else Step(Run(b, ops[..|ops| - 1]), ops[|ops| - 1])
  }

  function Debits(lines: seq<Line>): int {
    if lines == [] then 0 else Debits(lines[..|lines| - 1]) + lines[|lines| - 1].debit
  }

  function Credits(lines: seq<Line>): int {
    if lines == [] then 0 else Credits(lines[..|lines| - 1]) + lines[|lines| - 1].credit
  }

  /** Debits less credits of one account. */
  function Net(lines: seq<Line>, account: nat): int {
    if lines == [] then 0
    else
      var l := lines[|lines| - 1];
      Net(lines[..|lines| - 1], account) + if l.account == account then l.debit - l.credit else 0
  }

  predicate Balanced(e: Entry) { e.lines != [] && Debits(e.lines) == Credits(e.lines) }

  ghost predicate AllBalanced(entries: seq<Entry>) { forall i :: 0 <= i < |entries| ==> Balanced(entries[i]) }

  ghost predicate KeysDistinct(entries: seq<Entry>) {
    forall i, j :: 0 <= i < j < |entries| ==> entries[i].key != entries[j].key
  }

  /** Entry `j` reverses entry `i`. */
  predicate Undoes(entries: seq<Entry>, j: nat, i: nat) {
    && i < j < |entries|
    && entries[j].reversedOf == Some(i) && entries[i].reversedBy == Some(j)
    && entries[j].lines == Swapped(entries[i].lines)
    && entries[j].key.restaurant == entries[i].key.restaurant && entries[j].branch == entries[i].branch
  }

  ghost predicate Linked(entries: seq<Entry>) {
    && (forall i: nat :: i < |entries| && entries[i].reversedBy.Some? ==> Undoes(entries, entries[i].reversedBy.value, i))
    && (forall j: nat :: j < |entries| && entries[j].reversedOf.Some? ==> Undoes(entries, j, entries[j].reversedOf.value))
  }

  ghost predicate Inv(b: Books) { AllBalanced(b.entries) && KeysDistinct(b.entries) && Linked(b.entries) }

  lemma {:induction false} SwappedTotals(lines: seq<Line>)
    ensures Debits(Swapped(lines)) == Credits(lines) && Credits(Swapped(lines)) == Debits(lines)
  {
    if lines != [] {
      SwappedTotals(lines[..|lines| - 1]);
      assert Swapped(lines)[..|lines| - 1] == Swapped(lines[..|lines| - 1]);
    }
  }

  lemma {:induction false} SwappedNet(lines: seq<Line>, account: nat)
    ensures Net(Swapped(lines), account) == -Net(lines, account)
  {
    if lines != [] {
      SwappedNet(lines[..|lines| - 1], account);
      assert Swapped(lines)[..|lines| - 1] == Swapped(lines[..|lines| - 1]);
    }
  }

  lemma {:induction false} ResolvedTotals(chart: Chart, restaurant: nat, lines: seq<CodedLine>)
    requires Resolves(chart, restaurant, lines)
    ensures Debits(Resolved(chart, restaurant, lines)) == CodedDebits(lines)
    ensures Credits(Resolved(chart, restaurant, lines)) == CodedCredits(lines)
  {
    if lines != [] {
      var n := |lines| - 1;
      ResolvedTotals(chart, restaurant, lines[..n]);
      assert Resolved(chart, restaurant, lines)[..n] == Resolved(chart, restaurant, lines[..n]);
    }
  }

  lemma {:induction false} PostKeepsInv(b: Books, req: Request, chart: Chart)
    requires Inv(b)
    ensures Inv(Post(b, req, chart))
  {
    if Verdict(b, req, chart).Posted? {
      ResolvedTotals(chart, req.key.restaurant, req.lines);
      assert forall i: nat, j: nat :: Undoes(b.entries, j, i) ==> Undoes(Post(b, req, chart).entries, j, i);
    }
  }

  lemma {:induction false} ReverseKeepsKeys(b: Books, id: nat, today: int)
    requires AllBalanced(b.entries) && KeysDistinct(b.entries)
    ensures AllBalanced(Reverse(b, id, today).entries) && KeysDistinct(Reverse(b, id, today).entries)
  {
    if ReversalVerdict(b, id, today).Posted? {
      SwappedTotals(b.entries[id].lines);
    }
  }

  lemma {:induction false} ReverseKeepsLinks(b: Books, id: nat, today: int)
    requires Linked(b.entries)
    ensures Linked(Reverse(b, id, today).entries)
  {
    if ReversalVerdict(b, id, today).Posted? {
      var after, n := Reverse(b, id, today).entries, |b.entries|;
      assert Undoes(after, n, id);
      forall i: nat, j: nat | Undoes(b.entries, j, i) ensures Undoes(after, j, i) {
      }
    }
  }

  lemma {:induction false} RunKeepsInv(b: Books, ops: seq<Op>)
    requires Inv(b)
    ensures Inv(Run(b, ops))
  {
    if ops != [] {
      var front, op := Run(b, ops[..|ops| - 1]), ops[|ops| - 1];
      RunKeepsInv(b, ops[..|ops| - 1]);
      match op
      case Create(req, chart) => PostKeepsInv(front, req, chart);
      case ReverseOp(id, today) =>
        ReverseKeepsKeys(front, id, today);
        ReverseKeepsLinks(front, id, today);
      case _ =>
    }
  }

  /** In every reachable journal: every entry balances on its own, a reversed entry has exactly one
      reversal, and the two sum to zero on every account. */
  lemma {:induction false} ReversalsPairUp(b: Books, ops: seq<Op>, i: nat, account: nat)
    requires Inv(b) && i < |Run(b, ops).entries| && Run(b, ops).entries[i].reversedBy.Some?
    ensures var entries := Run(b, ops).entries;
            var j := entries[i].reversedBy.value;
            && Undoes(entries, j, i)
            && (forall k :: 0 <= k < |entries| && entries[k].reversedOf == Some(i) ==> k == j)
            && Net(entries[i].lines, account) + Net(entries[j].lines, account) == 0
            && Balanced(entries[i]) && Balanced(entries[j])
  {
    RunKeepsInv(b, ops);
    SwappedNet(Run(b, ops).entries[i].lines, account);
  }

  /** A walk along reversal links: each entry reverses the next one. */
  ghost predicate Walk(entries: seq<Entry>, path: seq<nat>) {
    && (forall k :: 0 <= k < |path| ==> path[k] < |entries|)
    && (forall k :: 0 <= k < |path| - 1 ==> entries[path[k]].reversedOf == Some(path[k + 1]))
  }

  /** Reversal links form no cycle, and two walks from the same entry agree: every step of a walk
      goes to an older entry. */
  lemma {:induction false} NoCycle(b: Books, ops: seq<Op>, path: seq<nat>)
    requires Inv(b) && Walk(Run(b, ops).entries, path) && |path| > 1
    ensures path[|path| - 1] <= path[0] - (|path| - 1)
  {
    var entries, n := Run(b, ops).entries, |path| - 1;
    RunKeepsInv(b, ops);
    assert entries[path[n - 1]].reversedOf == Some(path[n - 1 + 1]);
    assert Undoes(entries, path[n - 1], path[n]);
    if n > 1 {
      assert forall k :: 0 <= k < n ==> path[..n][k] == path[k];
      NoCycle(b, ops, path[..n]);
    }
  }

  // ----- closed periods are frozen -----

  /** Whatever is dated in the period was there before and has not changed. */
  ghost predicate FrozenIn(before: seq<Entry>, after: seq<Entry>, p: Period) {
    && |before| <= |after|
    && (forall i :: 0 <= i < |before| ==> after[i].key == before[i].key && after[i].date == before[i].date)
    && (forall i :: 0 <= i < |before| && Covers(p, before[i].key.restaurant, before[i].date) ==> after[i] == before[i])
    && (forall i :: |before| <= i < |after| ==> !Covers(p, after[i].key.restaurant, after[i].date))
  }

  predicate ClosedIn(b: Books, p: Period) { p in b.periods && b.periods[p] != Open }

  lemma {:induction false} StepFreezes(b: Books, op: Op, p: Period)
    requires ClosedIn(b, p) && op != ReopenOp(p)
    ensures ClosedIn(Step(b, op), p) && FrozenIn(b.entries, Step(b, op).entries, p)
  {
  }

  /** Until a closed period is reopened by name, no run adds an entry dated in it, changes one or
      marks one reversed; other periods may overlap it and be reopened. */
  lemma {:induction false} ClosedPeriodIsFrozen(b: Books, ops: seq<Op>, p: Period)
    requires ClosedIn(b, p) && forall i :: 0 <= i < |ops| ==> ops[i] != ReopenOp(p)
    ensures ClosedIn(Run(b, ops), p) && FrozenIn(b.entries, Run(b, ops).entries, p)
  {
    if ops != [] {
      var n := |ops| - 1;
      ClosedPeriodIsFrozen(b, ops[..n], p);
      StepFreezes(Run(b, ops[..n]), ops[n], p);
    }
  }

  /** A locked period stays locked, so it is frozen whatever is attempted. */
  lemma {:induction false} LockedIsForever(b: Books, ops: seq<Op>, p: Period)
    requires p in b.periods && b.periods[p] == Locked
    ensures var c := Run(b, ops);
            p in c.periods && c.periods[p] == Locked && FrozenIn(b.entries, c.entries, p)
  {
    if ops != [] {
      var n := |ops| - 1;
      LockedIsForever(b, ops[..n], p);
      var c := Run(b, ops[..n]);
      if ops[n] != ReopenOp(p) { StepFreezes(c, ops[n], p); }
    }
  }
}
