/** One account's ledger: opening balance, dated lines with a running balance, closing balance. */
module AccountLedger {

  import opened Basics
  import opened Journal

  datatype Kind = Asset | Liability | Equity | Revenue | Expense

  predicate DebitNormal(kind: Kind) { kind == Asset || kind == Expense }

  /** A movement with the sign that is normal for the account. */
  function Signed(kind: Kind, net: int): int { if DebitNormal(kind) then net else -net }

  predicate OfRestaurant(e: Entry, restaurant: Option<nat>) { restaurant.None? || e.key.restaurant == restaurant.value }

  /** Debits less credits of the account over the entries dated up to `last`. */
  function BalanceUpTo(entries: seq<Entry>, account: nat, last: int, restaurant: Option<nat>): int {
    if entries == [] then 0
    else
      var e := entries[|entries| - 1];
      BalanceUpTo(entries[..|entries| - 1], account, last, restaurant)
      + if e.date <= last && OfRestaurant(e, restaurant) then Net(e.lines, account) else 0
  }

  // ----- the query for the period's lines -----

  datatype Row = Row(date: int, entry: nat, debit: int, credit: int)

  function LineRows(lines: seq<Line>, account: nat, date: int, entry: nat): seq<Row> {
    if lines == [] then []
    else
      var l := lines[|lines| - 1];
      LineRows(lines[..|lines| - 1], account, date, entry)
      + if l.account == account then [Row(date, entry, l.debit, l.credit)] else []
  }

  function RowsBetween(entries: seq<Entry>, account: nat, first: int, last: int, restaurant: Option<nat>): seq<Row> {
    if entries == [] then []
    else
      var n := |entries| - 1;
      var e := entries[n];
      RowsBetween(entries[..n], account, first, last, restaurant)
      + if first <= e.date <= last && OfRestaurant(e, restaurant) then LineRows(e.lines, account, e.date, n) else []
  }

  /** Places a row after all rows that are not later; entries are older first among equal dates. */
  function InsertByDate(rows: seq<Row>, row: Row): seq<Row> {
    if rows == [] || rows[|rows| - 1].date <= row.date then rows + [row]
    else InsertByDate(rows[..|rows| - 1], row) + [rows[|rows| - 1]]
  }

  function SortByDate(rows: seq<Row>): seq<Row> {
    if rows == [] then [] else InsertByDate(SortByDate(rows[..|rows| - 1]), rows[|rows| - 1])
  }

  /** The movements of the rows dated up to `date`. */
  function Movement(rows: seq<Row>, date: int): int {
    if rows == [] then 0
    else
      var row := rows[|rows| - 1];
      Movement(rows[..|rows| - 1], date) + if row.date <= date then row.debit - row.credit else 0
  }

  lemma {:induction false} MovementAppend(xs: seq<Row>, ys: seq<Row>, date: int)
    ensures Movement(xs + ys, date) == Movement(xs, date) + Movement(ys, date)
  {
    if ys == [] {
      assert xs + ys == xs;
    } else {
      var n := |ys| - 1;
      MovementAppend(xs, ys[..n], date);
      assert (xs + ys)[..|xs| + n] == xs + ys[..n];
    }
  }

  predicate ByDate(rows: seq<Row>) { forall i, j :: 0 <= i < j < |rows| ==> rows[i].date <= rows[j].date }

  predicate AllUpTo(rows: seq<Row>, date: int) { forall i :: 0 <= i < |rows| ==> rows[i].date <= date }

  lemma {:induction false} InsertOrders(rows: seq<Row>, row: Row)
    requires ByDate(rows)
    ensures ByDate(InsertByDate(rows, row))
    ensures forall date :: AllUpTo(rows, date) && row.date <= date ==> AllUpTo(InsertByDate(rows, row), date)
  {
    if !(rows == [] || rows[|rows| - 1].date <= row.date) {
      var n := |rows| - 1;
      InsertOrders(rows[..n], row);
      assert AllUpTo(rows[..n], rows[n].date);
      assert forall date :: AllUpTo(rows, date) ==> AllUpTo(rows[..n], date) && rows[n].date <= date;
    }
  }

  lemma {:induction false} InsertPermutes(rows: seq<Row>, row: Row)
    ensures multiset(InsertByDate(rows, row)) == multiset(rows) + multiset{row}
  {
    if !(rows == [] || rows[|rows| - 1].date <= row.date) {
      var n := |rows| - 1;
      InsertPermutes(rows[..n], row);
      assert rows == rows[..n] + [rows[n]];
    }
  }

  lemma {:induction false} InsertMoves(rows: seq<Row>, row: Row, date: int)
    ensures Movement(InsertByDate(rows, row), date)
        == Movement(rows, date) + if row.date <= date then row.debit - row.credit else 0
  {
    if rows == [] || rows[|rows| - 1].date <= row.date {
      assert (rows + [row])[..|rows|] == rows;
    } else {
      var n := |rows| - 1;
      var inner := InsertByDate(rows[..n], row);
      InsertMoves(rows[..n], row, date);
      assert (inner + [rows[n]])[..|inner|] == inner;
    }
  }

  lemma {:induction false} SortedByDate(rows: seq<Row>)
    ensures ByDate(SortByDate(rows))
  {
    if rows != [] {
      SortedByDate(rows[..|rows| - 1]);
      InsertOrders(SortByDate(rows[..|rows| - 1]), rows[|rows| - 1]);
    }
  }

  lemma {:induction false} SortPermutes(rows: seq<Row>)
    ensures multiset(SortByDate(rows)) == multiset(rows)
  {
    if rows != [] {
      var n := |rows| - 1;
      SortPermutes(rows[..n]);
      InsertPermutes(SortByDate(rows[..n]), rows[n]);
      assert rows == rows[..n] + [rows[n]];
    }
  }

  /** The sorted rows are the same rows, in date order. */
  lemma {:induction false} SortOrders(rows: seq<Row>)
    ensures ByDate(SortByDate(rows)) && multiset(SortByDate(rows)) == multiset(rows)
  {
    SortedByDate(rows);
    SortPermutes(rows);
  }

  lemma {:induction false} SortMoves(rows: seq<Row>, date: int)
    ensures Movement(SortByDate(rows), date) == Movement(rows, date)
  {
    if rows != [] {
      var n := |rows| - 1;
      SortMoves(rows[..n], date);
      InsertMoves(SortByDate(rows[..n]), rows[n], date);
    }
  }

  lemma {:induction false} LineRowsMovement(lines: seq<Line>, account: nat, date: int, entry: nat, last: int)
    ensures Movement(LineRows(lines, account, date, entry), last) == if date <= last then Net(lines, account) else 0
  {
    if lines != [] {
      var n := |lines| - 1;
      LineRowsMovement(lines[..n], account, date, entry, last);
      var front, row := LineRows(lines[..n], account, date, entry), Row(date, entry, lines[n].debit, lines[n].credit);
      assert (front + [row])[..|front|] == front && front + [] == front;
    }
  }

  /** The rows of the period account for the balance between its start and any of its days. */
  lemma {:induction false} RowsMovement(entries: seq<Entry>, account: nat, first: int, last: int,
      restaurant: Option<nat>, date: int)
    requires first - 1 <= date <= last
    ensures Movement(RowsBetween(entries, account, first, last, restaurant), date)
         == BalanceUpTo(entries, account, date, restaurant) - BalanceUpTo(entries, account, first - 1, restaurant)
  {
    if entries != [] {
      var n := |entries| - 1;
      RowsMovement(entries[..n], account, first, last, restaurant, date);
      var front, more := RowsBetween(entries[..n], account, first, last, restaurant),
          LineRows(entries[n].lines, account, entries[n].date, n);
      LineRowsMovement(entries[n].lines, account, entries[n].date, n, date);
      MovementAppend(front, more, date);
      assert front + [] == front;
    }
  }

  lemma {:induction false} RowsAreBetween(entries: seq<Entry>, account: nat, first: int, last: int,
      restaurant: Option<nat>)
    ensures forall row :: row in RowsBetween(entries, account, first, last, restaurant) ==> first <= row.date <= last
  {
    if entries != [] {
      var n := |entries| - 1;
      RowsAreBetween(entries[..n], account, first, last, restaurant);
      LineRowsDated(entries[n].lines, account, entries[n].date, n);
    }
  }

  lemma {:induction false} LineRowsDated(lines: seq<Line>, account: nat, date: int, entry: nat)
    ensures forall row :: row in LineRows(lines, account, date, entry) ==> row.date == date
  {
    if lines != [] { LineRowsDated(lines[..|lines| - 1], account, date, entry); }
  }

  datatype LedgerLine = LedgerLine(row: Row, runningBalance: int)

  /** The rows with their running balances, from the opening balance on. */
  function Running(kind: Kind, opening: int, rows: seq<Row>): (lines: seq<LedgerLine>)
    ensures |lines| == |rows|
  {
    if rows == [] then []
    else
      var n := |rows| - 1;
      var front := Running(kind, opening, rows[..n]);
      front + [LedgerLine(rows[n], ClosingOf(opening, front) + Signed(kind, rows[n].debit - rows[n].credit))]
  }

  function ClosingOf(opening: int, lines: seq<LedgerLine>): int {
    if lines == [] then opening else lines[|lines| - 1].runningBalance
  }

  lemma {:induction false} ClosingIsMovement(kind: Kind, opening: int, rows: seq<Row>, date: int)
    requires AllUpTo(rows, date)
    ensures ClosingOf(opening, Running(kind, opening, rows)) == opening + Signed(kind, Movement(rows, date))
  {
    if rows != [] { ClosingIsMovement(kind, opening, rows[..|rows| - 1], date); }
  }

  function SortedRows(entries: seq<Entry>, account: nat, first: int, last: int, restaurant: Option<nat>): seq<Row> {
    SortByDate(RowsBetween(entries, account, first, last, restaurant))
  }

  lemma {:induction false} SortedUpTo(entries: seq<Entry>, account: nat, first: int, last: int, restaurant: Option<nat>)
    ensures AllUpTo(SortedRows(entries, account, first, last, restaurant), Max(last, first - 1))
  {
    var rows := RowsBetween(entries, account, first, last, restaurant);
    var sorted := SortByDate(rows);
    SortOrders(rows);
    RowsAreBetween(entries, account, first, last, restaurant);
    forall i | 0 <= i < |sorted| ensures sorted[i].date <= last {
      assert sorted[i] in multiset(sorted);
      assert sorted[i] in rows;
    }
  }

  lemma {:induction false} NoRowsBetween(entries: seq<Entry>, account: nat, first: int, last: int,
      restaurant: Option<nat>)
    requires first > last
    ensures RowsBetween(entries, account, first, last, restaurant) == []
  {
    if entries != [] { NoRowsBetween(entries[..|entries| - 1], account, first, last, restaurant); }
  }

  /** The closing balance is the account's whole balance up to the last day, so it does not depend on
      where the period starts unless that is after its end. */
  lemma {:induction false} ClosingDependsOnTheEnd(entries: seq<Entry>, account: nat, kind: Kind, first: int, last: int,
      restaurant: Option<nat>)
    ensures var opening := Signed(kind, BalanceUpTo(entries, account, first - 1, restaurant));
            var closing := ClosingOf(opening, Running(kind, opening, SortedRows(entries, account, first, last, restaurant)));
            closing == Signed(kind, BalanceUpTo(entries, account, Max(last, first - 1), restaurant))
  {
    var rows, end := RowsBetween(entries, account, first, last, restaurant), Max(last, first - 1);
    var opening := Signed(kind, BalanceUpTo(entries, account, first - 1, restaurant));
    SortedUpTo(entries, account, first, last, restaurant);
    ClosingIsMovement(kind, opening, SortByDate(rows), end);
    SortMoves(rows, end);
    if first <= last + 1 {
      RowsMovement(entries, account, first, last, restaurant, end);
    } else {
      NoRowsBetween(entries, account, first, last, restaurant);
    }
  }

  /** One account's ledger between two dates. */
  method GetLedger(entries: seq<Entry>, account: nat, kind: Kind, first: int, last: int, restaurant: Option<nat>)
    returns (opening: int, lines: seq<LedgerLine>, closing: int)
    ensures opening == Signed(kind, BalanceUpTo(entries, account, first - 1, restaurant))
    ensures lines == Running(kind, opening, SortedRows(entries, account, first, last, restaurant))
    ensures closing == Signed(kind, BalanceUpTo(entries, account, Max(last, first - 1), restaurant))
  {
    opening := Signed(kind, BalanceUpTo(entries, account, first - 1, restaurant));
    var rows := SortedRows(entries, account, first, last, restaurant);
    var running := opening;
    lines := [];
    for i := 0 to |rows|
      invariant lines == Running(kind, opening, rows[..i]) && running == ClosingOf(opening, lines)
    {
      assert rows[..i + 1][..i] == rows[..i];
      running := running + Signed(kind, rows[i].debit - rows[i].credit);
      lines := lines + [LedgerLine(rows[i], running)];
    }
    assert rows[..|rows|] == rows;
    closing := running;
    ClosingDependsOnTheEnd(entries, account, kind, first, last, restaurant);
  }

  lemma {:induction false} RunningPrefix(kind: Kind, opening: int, rows: seq<Row>, k: nat)
    requires k <= |rows|
    ensures Running(kind, opening, rows)[..k] == Running(kind, opening, rows[..k])
    decreases |rows|
  {
    if k < |rows| {
      var n := |rows| - 1;
      RunningPrefix(kind, opening, rows[..n], k);
      assert rows[..n][..k] == rows[..k];
    } else {
      assert rows[..k] == rows;
    }
  }

  lemma {:induction false} LaterRowsDoNotMove(rows: seq<Row>, k: nat, date: int)
    requires k <= |rows| && forall i :: k <= i < |rows| ==> rows[i].date > date
    ensures Movement(rows, date) == Movement(rows[..k], date)
    decreases |rows|
  {
    if k < |rows| {
      var n := |rows| - 1;
      LaterRowsDoNotMove(rows[..n], k, date);
      assert rows[..n][..k] == rows[..k];
    } else {
      assert rows[..k] == rows;
    }
  }

  lemma {:induction false} RunningAt(kind: Kind, opening: int, rows: seq<Row>, k: nat)
    requires ByDate(rows) && k < |rows| && (k + 1 < |rows| ==> rows[k].date < rows[k + 1].date)
    ensures Running(kind, opening, rows)[k].runningBalance == opening + Signed(kind, Movement(rows, rows[k].date))
  {
    LaterRowsDoNotMove(rows, k + 1, rows[k].date);
    ClosingIsMovement(kind, opening, rows[..k + 1], rows[k].date);
    RunningPrefix(kind, opening, rows, k + 1);
    assert Running(kind, opening, rows)[k] == Running(kind, opening, rows)[..k + 1][k];
  }

  lemma {:induction false} SortedRowsMove(entries: seq<Entry>, account: nat, first: int, last: int,
      restaurant: Option<nat>, k: nat)
    requires k < |SortedRows(entries, account, first, last, restaurant)|
    ensures var rows := SortedRows(entries, account, first, last, restaurant);
            ByDate(rows)
            && Movement(rows, rows[k].date)
               == BalanceUpTo(entries, account, rows[k].date, restaurant) - BalanceUpTo(entries, account, first - 1, restaurant)
  {
    var unsorted := RowsBetween(entries, account, first, last, restaurant);
    var date := SortByDate(unsorted)[k].date;
    SortOrders(unsorted);
    SortMoves(unsorted, date);
    RowsAreBetween(entries, account, first, last, restaurant);
    assert SortByDate(unsorted)[k] in multiset(unsorted);
    RowsMovement(entries, account, first, last, restaurant, date);
  }

  /** After the last line of a day the running balance is the account's balance at the end of it. */
  lemma {:induction false} RunningBalanceAtDayEnd(entries: seq<Entry>, account: nat, kind: Kind, first: int, last: int,
      restaurant: Option<nat>, k: nat)
    requires var rows := SortedRows(entries, account, first, last, restaurant);
             k < |rows| && (k + 1 < |rows| ==> rows[k].date < rows[k + 1].date)
    ensures var rows := SortedRows(entries, account, first, last, restaurant);
            var opening := Signed(kind, BalanceUpTo(entries, account, first - 1, restaurant));
            var balance := Running(kind, opening, rows)[k].runningBalance;
            balance == Signed(kind, BalanceUpTo(entries, account, rows[k].date, restaurant))
  {
    var rows := SortedRows(entries, account, first, last, restaurant);
    SortedRowsMove(entries, account, first, last, restaurant, k);
    RunningAt(kind, Signed(kind, BalanceUpTo(entries, account, first - 1, restaurant)), rows, k);
  }

  // ----- reversals -----

  /** What one entry adds to the balance up to a date. */
  function Share(e: Entry, account: nat, last: int, restaurant: Option<nat>): int {
    if e.date <= last && OfRestaurant(e, restaurant) then Net(e.lines, account) else 0
  }

  /** The balance as if the entries in `hidden` did not exist. */
  function BalanceWithout(entries: seq<Entry>, account: nat, last: int, restaurant: Option<nat>,
      hidden: set<nat>): int {
    if entries == [] then 0
    else
      var n := |entries| - 1;
      BalanceWithout(entries[..n], account, last, restaurant, hidden)
      + if n in hidden then 0 else Share(entries[n], account, last, restaurant)
  }

  function ShareAt(entries: seq<Entry>, i: nat, account: nat, last: int, restaurant: Option<nat>): int {
    if i < |entries| then Share(entries[i], account, last, restaurant) else 0
  }

  lemma {:induction false} HidePair(entries: seq<Entry>, account: nat, last: int, restaurant: Option<nat>, i: nat,
      j: nat)
    requires i != j
    ensures BalanceUpTo(entries, account, last, restaurant)
         == BalanceWithout(entries, account, last, restaurant, {i, j})
            + ShareAt(entries, i, account, last, restaurant) + ShareAt(entries, j, account, last, restaurant)
  {
    if entries != [] { HidePair(entries[..|entries| - 1], account, last, restaurant, i, j); }
  }

  /** For a reversed entry and its reversal: a date covering both, or neither, gives the balance
      without them, and a date covering only one is off by that one. */
  lemma {:induction false} ReversalCancels(entries: seq<Entry>, account: nat, last: int, restaurant: Option<nat>,
      i: nat, j: nat)
    requires Undoes(entries, j, i)
    ensures var without := BalanceWithout(entries, account, last, restaurant, {i, j});
            var off := if !OfRestaurant(entries[i], restaurant) then 0
                       else if entries[i].date <= last < entries[j].date then Net(entries[i].lines, account)
                       else if entries[j].date <= last < entries[i].date then -Net(entries[i].lines, account)
                       else 0;
            BalanceUpTo(entries, account, last, restaurant) == without + off
  {
    HidePair(entries, account, last, restaurant, i, j);
    SwappedNet(entries[i].lines, account);
  }

  /** The act of reversing: it changes an account's balance up to a date by the original's net,
      negated, if today is within the date, and otherwise not at all. */
  lemma {:induction false} ReverseMovesBalance(b: Books, id: nat, today: int, account: nat, last: int,
      restaurant: Option<nat>)
    requires ReversalVerdict(b, id, today).Posted?
    ensures BalanceUpTo(Reverse(b, id, today).entries, account, last, restaurant)
         == BalanceUpTo(b.entries, account, last, restaurant)
            - if today <= last && OfRestaurant(b.entries[id], restaurant) then Net(b.entries[id].lines, account) else 0
  {
    var marked := b.entries[id := b.entries[id].(reversedBy := Some(|b.entries|))];
    MarkKeepsBalance(b.entries, marked, account, last, restaurant);
    SwappedNet(b.entries[id].lines, account);
    var after := Reverse(b, id, today).entries;
    assert after[..|marked|] == marked;
  }

  lemma {:induction false} MarkKeepsBalance(xs: seq<Entry>, ys: seq<Entry>, account: nat, last: int,
      restaurant: Option<nat>)
    requires |xs| == |ys|
    requires forall i :: 0 <= i < |xs| ==> ys[i].key == xs[i].key && ys[i].date == xs[i].date && ys[i].lines == xs[i].lines
    ensures BalanceUpTo(xs, account, last, restaurant) == BalanceUpTo(ys, account, last, restaurant)
  {
    if xs != [] {
      var n := |xs| - 1;
      MarkKeepsBalance(xs[..n], ys[..n], account, last, restaurant);
    }
  }

  // ----- standing entries -----

  /** An entry that undoes a standing one, or undoes an undone undoing, and so on. */
  predicate Undoing(entries: seq<Entry>, i: nat)
    requires i < |entries|
  {
    entries[i].reversedOf.Some? && entries[i].reversedOf.value < i && !Undoing(entries, entries[i].reversedOf.value)
  }

  /** Not reversed, and not itself the undoing of something. */
  predicate Stands(entries: seq<Entry>, i: nat)
    requires i < |entries|
  {
    entries[i].reversedBy.None? && !Undoing(entries, i)
  }

  /** The shares of the standing entries among the first `n` in the balance up to a date. */
  function StandingBalance(entries: seq<Entry>, account: nat, last: int, restaurant: Option<nat>, n: nat): int
    requires n <= |entries|
  {
    if n == 0 then 0
    else
      StandingBalance(entries, account, last, restaurant, n - 1)
      + if Stands(entries, n - 1) then Share(entries[n - 1], account, last, restaurant) else 0
  }

  /** The date covers both entries of every pair, or neither. */
  ghost predicate SplitsNoPair(entries: seq<Entry>, last: int) {
    forall j: nat :: j < |entries| && entries[j].reversedOf.Some? && entries[j].reversedOf.value < j ==>
      (entries[j].date <= last <==> entries[entries[j].reversedOf.value].date <= last)
  }

  /** The same up to marks. */
  predicate SameEntries(xs: seq<Entry>, ys: seq<Entry>, n: nat) {
    n <= |xs| && n <= |ys| && forall i :: 0 <= i < n ==> xs[i].(reversedBy := None) == ys[i].(reversedBy := None)
  }

  lemma {:induction false} SameUndoing(xs: seq<Entry>, ys: seq<Entry>, n: nat, i: nat)
    requires SameEntries(xs, ys, n) && i < n
    ensures Undoing(xs, i) == Undoing(ys, i)
  {
    assert xs[i].reversedOf == xs[i].(reversedBy := None).reversedOf == ys[i].reversedOf;
    if xs[i].reversedOf.Some? && xs[i].reversedOf.value < i {
      SameUndoing(xs, ys, n, xs[i].reversedOf.value);
    }
  }

  lemma {:induction false} SameShare(x: Entry, y: Entry, account: nat, last: int, restaurant: Option<nat>)
    requires x.(reversedBy := None) == y.(reversedBy := None)
    ensures Share(x, account, last, restaurant) == Share(y, account, last, restaurant)
  {
    assert x.lines == x.(reversedBy := None).lines && x.key == x.(reversedBy := None).key
      && x.date == x.(reversedBy := None).date;
  }

  /** Marking entry `k` reversed takes its share out, if it stood. */
  lemma {:induction false} MarkingRemoves(xs: seq<Entry>, ys: seq<Entry>, account: nat, last: int,
      restaurant: Option<nat>, n: nat, k: nat)
    requires SameEntries(xs, ys, n)
    requires forall i :: 0 <= i < n && i != k ==> xs[i].reversedBy == ys[i].reversedBy
    requires k < n ==> xs[k].reversedBy.None? && ys[k].reversedBy.Some?
    ensures StandingBalance(xs, account, last, restaurant, n)
         == StandingBalance(ys, account, last, restaurant, n)
            + if k < n && Stands(xs, k) then Share(xs[k], account, last, restaurant) else 0
  {
    if n > 0 {
      MarkingRemoves(xs, ys, account, last, restaurant, n - 1, k);
      SameUndoing(xs, ys, n, n - 1);
      SameShare(xs[n - 1], ys[n - 1], account, last, restaurant);
    }
  }

  /** The newest entry is not reversed; if it is a reversal, it undoes the entry it names. */
  predicate NewestIsOpen(entries: seq<Entry>) {
    entries != []
    && var e := entries[|entries| - 1];
       e.reversedBy.None? && (e.reversedOf.Some? ==> Undoes(entries, |entries| - 1, e.reversedOf.value))
  }

  /** The journal without its newest entry, and without the mark that entry made. */
  function Earlier(entries: seq<Entry>): (before: seq<Entry>)
    requires NewestIsOpen(entries)
    ensures |before| == |entries| - 1
  {
    var n := |entries| - 1;
    var undone := entries[n].reversedOf;
    if undone.None? then entries[..n] else entries[..n][undone.value := entries[undone.value].(reversedBy := None)]
  }

  lemma {:induction false} EarlierKeepsLinks(entries: seq<Entry>)
    requires entries != [] && Linked(entries)
    ensures NewestIsOpen(entries) && Linked(Earlier(entries))
  {
    var n := |entries| - 1;
    assert NewestIsOpen(entries);
    var before := Earlier(entries);
    assert forall k: nat, j: nat :: Undoes(entries, j, k) && j != n ==> Undoes(before, j, k);
    assert forall k: nat :: k < n && entries[k].reversedBy.Some? ==> Undoes(entries, entries[k].reversedBy.value, k);
  }

  lemma {:induction false} EarlierSplitsNoPair(entries: seq<Entry>, last: int)
    requires NewestIsOpen(entries) && SplitsNoPair(entries, last)
    ensures SplitsNoPair(Earlier(entries), last)
  {
    var before := Earlier(entries);
    assert forall k :: 0 <= k < |before| ==>
      before[k].reversedOf == entries[k].reversedOf && before[k].date == entries[k].date;
  }

  function Everything(entries: seq<Entry>, account: nat): int {
    if entries == [] then 0
    else Everything(entries[..|entries| - 1], account) + Net(entries[|entries| - 1].lines, account)
  }

  /** However often entries, reversals and reversals of reversals were reversed, the balance up to a date
      that splits no pair is that of the entries still standing, of one restaurant or of all. */
  lemma {:induction false} BalanceIsStanding(entries: seq<Entry>, account: nat, last: int, restaurant: Option<nat>)
    requires Linked(entries) && SplitsNoPair(entries, last)
    ensures BalanceUpTo(entries, account, last, restaurant)
        == StandingBalance(entries, account, last, restaurant, |entries|)
    decreases |entries|
  {
    if entries != [] {
      EarlierKeepsLinks(entries);
      EarlierSplitsNoPair(entries, last);
      BalanceIsStanding(Earlier(entries), account, last, restaurant);
      NewestEntry(entries, account, last, restaurant);
    }
  }

  lemma {:induction false} NewestEntry(entries: seq<Entry>, account: nat, last: int, restaurant: Option<nat>)
    requires NewestIsOpen(entries) && SplitsNoPair(entries, last)
    requires var before := Earlier(entries);
             BalanceUpTo(before, account, last, restaurant) == StandingBalance(before, account, last, restaurant, |before|)
    ensures BalanceUpTo(entries, account, last, restaurant)
        == StandingBalance(entries, account, last, restaurant, |entries|)
  {
    var n, undone := |entries| - 1, entries[|entries| - 1].reversedOf;
    if undone.None? {
      PrefixStanding(entries, account, last, restaurant, n);
    } else {
      MarkKeepsBalance(Earlier(entries), entries[..n], account, last, restaurant);
      NewestReversal(entries, Earlier(entries), account, last, restaurant, undone.value);
    }
  }

  /** Against the journal `before` the newest reversal, which had entry `i` unmarked. */
  lemma {:induction false} NewestReversal(entries: seq<Entry>, before: seq<Entry>, account: nat, last: int,
      restaurant: Option<nat>, i: nat)
    requires entries != [] && Undoes(entries, |entries| - 1, i) && entries[|entries| - 1].reversedBy.None?
    requires SplitsNoPair(entries, last)
    requires before == entries[..|entries| - 1][i := entries[i].(reversedBy := None)]
    ensures var n := |entries| - 1;
            StandingBalance(entries, account, last, restaurant, n + 1)
            == StandingBalance(before, account, last, restaurant, n) + Share(entries[n], account, last, restaurant)
  {
    var n := |entries| - 1;
    assert SameEntries(before, entries, n);
    MarkingRemoves(before, entries, account, last, restaurant, n, i);
    SameUndoing(before, entries, n, i);
    SwappedNet(entries[i].lines, account);
    assert Share(entries[n], account, last, restaurant) == -Share(before[i], account, last, restaurant);
  }

  lemma {:induction false} PrefixStanding(entries: seq<Entry>, account: nat, last: int, restaurant: Option<nat>, n: nat)
    requires n < |entries|
    ensures StandingBalance(entries[..|entries| - 1], account, last, restaurant, n)
        == StandingBalance(entries, account, last, restaurant, n)
  {
    if n > 0 {
      PrefixStanding(entries, account, last, restaurant, n - 1);
      SameUndoing(entries[..|entries| - 1], entries, n, n - 1);
    }
  }

  /** So is the closing balance of every run, for every restaurant filter and every end date that splits no
      pair, in particular every date on or after all entries. */
  lemma {:induction false} ClosingIsStanding(b: Books, ops: seq<Op>, account: nat, last: int, restaurant: Option<nat>)
    requires Inv(b) && SplitsNoPair(Run(b, ops).entries, last)
    ensures var entries := Run(b, ops).entries;
            BalanceUpTo(entries, account, last, restaurant) == StandingBalance(entries, account, last, restaurant, |entries|)
  {
    RunKeepsInv(b, ops);
    BalanceIsStanding(Run(b, ops).entries, account, last, restaurant);
  }

  lemma {:induction false} CoveredIsEverything(entries: seq<Entry>, account: nat, last: int)
    requires forall i :: 0 <= i < |entries| ==> entries[i].date <= last
    ensures SplitsNoPair(entries, last) && BalanceUpTo(entries, account, last, None) == Everything(entries, account)
  {
    if entries != [] { CoveredIsEverything(entries[..|entries| - 1], account, last); }
  }
}
