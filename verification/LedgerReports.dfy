/** Trial balance and balance sheet over a restaurant's chart of accounts.

    In both queries the date, branch and reversed conditions belong to the ON clause of a left join
    from the journal lines to their entries, so a line whose entry fails them still counts; only the
    retained earnings use an inner join. */
module LedgerReports {

  import opened Basics
  import opened Journal
  import opened AccountLedger
  import JournalBuilders

  /** Accounts are listed in the order of their codes; an account's id is its position. */
  datatype Account = Account(restaurant: nat, kind: Kind, active: bool)

  // ----- the joins -----

  /** A journal line with its entry, or without one if the entry fails the join condition. */
  datatype JoinRow = JoinRow(line: Line, entry: Option<Entry>)

  predicate Matches(e: Entry, asOf: int, branch: Option<nat>) {
    e.date <= asOf && e.reversedBy.None? && (branch.Some? ==> e.branch == branch)
  }

  function JoinEntry(e: Entry, lines: seq<Line>, account: nat, asOf: int, branch: Option<nat>): seq<JoinRow> {
    if lines == [] then []
    else
      var l := lines[|lines| - 1];
      JoinEntry(e, lines[..|lines| - 1], account, asOf, branch)
      + if l.account == account then [JoinRow(l, if Matches(e, asOf, branch) then Some(e) else None)] else []
  }

  function LeftJoin(entries: seq<Entry>, account: nat, asOf: int, branch: Option<nat>): seq<JoinRow> {
    if entries == [] then []
    else
      var e := entries[|entries| - 1];
      LeftJoin(entries[..|entries| - 1], account, asOf, branch) + JoinEntry(e, e.lines, account, asOf, branch)
  }

  function SumDebit(rows: seq<JoinRow>): int {
    if rows == [] then 0 else SumDebit(rows[..|rows| - 1]) + rows[|rows| - 1].line.debit
  }

  function SumCredit(rows: seq<JoinRow>): int {
    if rows == [] then 0 else SumCredit(rows[..|rows| - 1]) + rows[|rows| - 1].line.credit
  }

  lemma {:induction false} SumsAppend(xs: seq<JoinRow>, ys: seq<JoinRow>)
    ensures SumDebit(xs + ys) == SumDebit(xs) + SumDebit(ys) && SumCredit(xs + ys) == SumCredit(xs) + SumCredit(ys)
  {
    if ys == [] {
      assert xs + ys == xs;
    } else {
      var n := |ys| - 1;
      SumsAppend(xs, ys[..n]);
      assert (xs + ys)[..|xs| + n] == xs + ys[..n];
    }
  }

  lemma {:induction false} JoinEntryNet(e: Entry, lines: seq<Line>, account: nat, asOf: int, branch: Option<nat>)
    ensures var rows := JoinEntry(e, lines, account, asOf, branch);
            SumDebit(rows) - SumCredit(rows) == Net(lines, account)
  {
    if lines != [] {
      var n := |lines| - 1;
      JoinEntryNet(e, lines[..n], account, asOf, branch);
      var front, row := JoinEntry(e, lines[..n], account, asOf, branch),
          JoinRow(lines[n], if Matches(e, asOf, branch) then Some(e) else None);
      assert (front + [row])[..|front|] == front && front + [] == front;
    }
  }

  /** The join loses no line: an account's debits less credits are its whole balance. */
  lemma {:induction false} JoinNet(entries: seq<Entry>, account: nat, asOf: int, branch: Option<nat>)
    ensures var rows := LeftJoin(entries, account, asOf, branch);
            SumDebit(rows) - SumCredit(rows) == Everything(entries, account)
  {
    if entries != [] {
      var n := |entries| - 1;
      JoinNet(entries[..n], account, asOf, branch);
      JoinEntryNet(entries[n], entries[n].lines, account, asOf, branch);
      SumsAppend(LeftJoin(entries[..n], account, asOf, branch),
                 JoinEntry(entries[n], entries[n].lines, account, asOf, branch));
    }
  }

  lemma {:induction false} JoinEntryIgnoresFilters(e: Entry, lines: seq<Line>, account: nat, asOf: int,
      branch: Option<nat>, asOf': int, branch': Option<nat>)
    ensures |JoinEntry(e, lines, account, asOf, branch)| == |JoinEntry(e, lines, account, asOf', branch')|
    ensures SumDebit(JoinEntry(e, lines, account, asOf, branch))
        == SumDebit(JoinEntry(e, lines, account, asOf', branch'))
  {
    if lines != [] {
      var n := |lines| - 1;
      JoinEntryIgnoresFilters(e, lines[..n], account, asOf, branch, asOf', branch');
      var r := JoinRow(lines[n], if Matches(e, asOf, branch) then Some(e) else None);
      var r' := JoinRow(lines[n], if Matches(e, asOf', branch') then Some(e) else None);
      var front, front' := JoinEntry(e, lines[..n], account, asOf, branch),
          JoinEntry(e, lines[..n], account, asOf', branch');
      assert (front + [r])[..|front|] == front && (front' + [r'])[..|front'|] == front' && front + [] == front
        && front' + [] == front';
    }
  }

  /** The date and branch asked for do not change what the join sums up. */
  lemma {:induction false} JoinIgnoresFilters(entries: seq<Entry>, account: nat, asOf: int, branch: Option<nat>,
      asOf': int, branch': Option<nat>)
    ensures SumDebit(LeftJoin(entries, account, asOf, branch)) == SumDebit(LeftJoin(entries, account, asOf', branch'))
    ensures SumCredit(LeftJoin(entries, account, asOf, branch)) == SumCredit(LeftJoin(entries, account, asOf', branch'))
  {
    JoinNet(entries, account, asOf, branch);
    JoinNet(entries, account, asOf', branch');
    if entries != [] {
      var n := |entries| - 1;
      var e := entries[n];
      JoinIgnoresFilters(entries[..n], account, asOf, branch, asOf', branch');
      JoinEntryIgnoresFilters(e, e.lines, account, asOf, branch, asOf', branch');
      SumsAppend(LeftJoin(entries[..n], account, asOf, branch), JoinEntry(e, e.lines, account, asOf, branch));
      SumsAppend(LeftJoin(entries[..n], account, asOf', branch'), JoinEntry(e, e.lines, account, asOf', branch'));
    }
  }

  // ----- sums over groups of accounts -----

  /** The balance of the accounts marked in `chosen`, below `n`. */
  function SumNet(entries: seq<Entry>, chosen: seq<bool>, n: nat): int
    requires n <= |chosen|
  {
    if n == 0 then 0 else SumNet(entries, chosen, n - 1) + if chosen[n - 1] then Everything(entries, n - 1) else 0
  }

  function GroupNet(entries: seq<Entry>, chosen: seq<bool>): int { SumNet(entries, chosen, |chosen|) }

  /** The same sum line by line: what the lines post to chosen accounts. */
  function PostedTo(lines: seq<Line>, chosen: seq<bool>): int {
    if lines == [] then 0
    else
      var l := lines[|lines| - 1];
      PostedTo(lines[..|lines| - 1], chosen)
      + if l.account < |chosen| && chosen[l.account] then l.debit - l.credit else 0
  }

  function AllPostedTo(entries: seq<Entry>, chosen: seq<bool>): int {
    if entries == [] then 0
    else AllPostedTo(entries[..|entries| - 1], chosen) + PostedTo(entries[|entries| - 1].lines, chosen)
  }

  function SumLines(lines: seq<Line>, chosen: seq<bool>, n: nat): int
    requires n <= |chosen|
  {
    if n == 0 then 0 else SumLines(lines, chosen, n - 1) + if chosen[n - 1] then Net(lines, n - 1) else 0
  }

  lemma {:induction false} OneLineMore(lines: seq<Line>, chosen: seq<bool>, n: nat)
    requires n <= |chosen| && lines != []
    ensures var l := lines[|lines| - 1];
            SumLines(lines, chosen, n) == SumLines(lines[..|lines| - 1], chosen, n)
            + if l.account < n && chosen[l.account] then l.debit - l.credit else 0
  {
    if n > 0 { OneLineMore(lines, chosen, n - 1); }
  }

  lemma {:induction false} LinesByAccount(lines: seq<Line>, chosen: seq<bool>)
    ensures SumLines(lines, chosen, |chosen|) == PostedTo(lines, chosen)
  {
    if lines == [] {
      NoLinesNoSum(chosen, |chosen|);
    } else {
      LinesByAccount(lines[..|lines| - 1], chosen);
      OneLineMore(lines, chosen, |chosen|);
    }
  }

  lemma {:induction false} NoLinesNoSum(chosen: seq<bool>, n: nat)
    requires n <= |chosen|
    ensures SumLines([], chosen, n) == 0
  {
    if n > 0 { NoLinesNoSum(chosen, n - 1); }
  }

  lemma {:induction false} OneEntryMore(entries: seq<Entry>, chosen: seq<bool>, n: nat)
    requires n <= |chosen| && entries != []
    ensures SumNet(entries, chosen, n)
        == SumNet(entries[..|entries| - 1], chosen, n) + SumLines(entries[|entries| - 1].lines, chosen, n)
  {
    if n > 0 { OneEntryMore(entries, chosen, n - 1); }
  }

  lemma {:induction false} NoEntriesNoSum(chosen: seq<bool>, n: nat)
    requires n <= |chosen|
    ensures SumNet([], chosen, n) == 0
  {
    if n > 0 { NoEntriesNoSum(chosen, n - 1); }
  }

  /** Summing by account and summing by line agree. */
  lemma {:induction false} ByAccountIsByLine(entries: seq<Entry>, chosen: seq<bool>)
    ensures GroupNet(entries, chosen) == AllPostedTo(entries, chosen)
  {
    if entries == [] {
      NoEntriesNoSum(chosen, |chosen|);
    } else {
      ByAccountIsByLine(entries[..|entries| - 1], chosen);
      OneEntryMore(entries, chosen, |chosen|);
      LinesByAccount(entries[|entries| - 1].lines, chosen);
    }
  }

  /** `all` is the disjoint union of `some` and `rest`. */
  predicate Splits(all: seq<bool>, some: seq<bool>, rest: seq<bool>) {
    && |all| == |some| == |rest|
    && forall a :: 0 <= a < |all| ==> (all[a] <==> some[a] || rest[a]) && !(some[a] && rest[a])
  }

  lemma {:induction false} SplitSum(entries: seq<Entry>, all: seq<bool>, some: seq<bool>, rest: seq<bool>, n: nat)
    requires Splits(all, some, rest) && n <= |all|
    ensures SumNet(entries, all, n) == SumNet(entries, some, n) + SumNet(entries, rest, n)
  {
    if n > 0 { SplitSum(entries, all, some, rest, n - 1); }
  }

  // ----- double entry -----

  /** Entries post to accounts of their own restaurant. */
  ghost predicate PostsOwn(entries: seq<Entry>, accounts: seq<Account>) {
    forall i :: 0 <= i < |entries| ==> LinesOwned(entries[i].lines, entries[i].key.restaurant, accounts)
  }

  predicate LinesOwned(lines: seq<Line>, r: nat, accounts: seq<Account>) {
    forall k :: 0 <= k < |lines| ==> lines[k].account < |accounts| && accounts[lines[k].account].restaurant == r
  }

  function Of(accounts: seq<Account>, r: nat): seq<bool> {
    seq(|accounts|, a requires 0 <= a < |accounts| => accounts[a].restaurant == r)
  }

  lemma {:induction false} OwnLines(lines: seq<Line>, r: nat, accounts: seq<Account>, r': nat)
    requires LinesOwned(lines, r', accounts)
    ensures PostedTo(lines, Of(accounts, r)) == if r == r' then Debits(lines) - Credits(lines) else 0
  {
    if lines != [] { OwnLines(lines[..|lines| - 1], r, accounts, r'); }
  }

  /** All accounts of a restaurant together net to zero. */
  lemma {:induction false} BooksBalance(entries: seq<Entry>, accounts: seq<Account>, r: nat)
    requires AllBalanced(entries) && PostsOwn(entries, accounts)
    ensures AllPostedTo(entries, Of(accounts, r)) == 0
  {
    if entries != [] {
      var n := |entries| - 1;
      BooksBalance(entries[..n], accounts, r);
      OwnLines(entries[n].lines, r, accounts, entries[n].key.restaurant);
      assert Balanced(entries[n]);
    }
  }

  // ----- trial balance -----

  function Active(accounts: seq<Account>, r: nat): seq<bool> {
    seq(|accounts|, a requires 0 <= a < |accounts| => accounts[a].restaurant == r && accounts[a].active)
  }

  function Inactive(accounts: seq<Account>, r: nat): seq<bool> {
    seq(|accounts|, a requires 0 <= a < |accounts| => accounts[a].restaurant == r && !accounts[a].active)
  }

  datatype TrialRow = TrialRow(account: nat, debit: int, credit: int)

  /** The debit column: what the join finds for the chosen accounts below `n`. */
  function DebitColumn(entries: seq<Entry>, chosen: seq<bool>, n: nat, asOf: int, branch: Option<nat>): int
    requires n <= |chosen|
  {
    if n == 0 then 0
    else DebitColumn(entries, chosen, n - 1, asOf, branch)
         + if chosen[n - 1] then SumDebit(LeftJoin(entries, n - 1, asOf, branch)) else 0
  }

  function CreditColumn(entries: seq<Entry>, chosen: seq<bool>, n: nat, asOf: int, branch: Option<nat>): int
    requires n <= |chosen|
  {
    if n == 0 then 0
    else CreditColumn(entries, chosen, n - 1, asOf, branch)
         + if chosen[n - 1] then SumCredit(LeftJoin(entries, n - 1, asOf, branch)) else 0
  }

  /** The trial balance is the same for every date and every branch asked for. */
  lemma {:induction false} TrialBalanceIgnoresFilters(entries: seq<Entry>, chosen: seq<bool>, n: nat, asOf: int,
      branch: Option<nat>, asOf': int, branch': Option<nat>)
    requires n <= |chosen|
    ensures DebitColumn(entries, chosen, n, asOf, branch) == DebitColumn(entries, chosen, n, asOf', branch')
    ensures CreditColumn(entries, chosen, n, asOf, branch) == CreditColumn(entries, chosen, n, asOf', branch')
  {
    if n > 0 {
      TrialBalanceIgnoresFilters(entries, chosen, n - 1, asOf, branch, asOf', branch');
      JoinIgnoresFilters(entries, n - 1, asOf, branch, asOf', branch');
    }
  }

  /** Accounts without any movement are left out of the list. */
  method GetTrialBalance(entries: seq<Entry>, accounts: seq<Account>, r: nat, asOf: int, branch: Option<nat>)
    returns (debit: int, credit: int, isBalanced: bool, rows: seq<TrialRow>)
    ensures debit == DebitColumn(entries, Active(accounts, r), |accounts|, asOf, branch)
    ensures credit == CreditColumn(entries, Active(accounts, r), |accounts|, asOf, branch)
    ensures debit - credit == GroupNet(entries, Active(accounts, r))
    ensures isBalanced <==> debit == credit
    ensures forall k :: 0 <= k < |rows| ==>
              && rows[k].account < |accounts| && Active(accounts, r)[rows[k].account]
              && rows[k].debit - rows[k].credit == Everything(entries, rows[k].account)
    ensures forall a: nat :: a < |accounts| && Active(accounts, r)[a] && Everything(entries, a) != 0 ==>
        exists k :: 0 <= k < |rows| && rows[k].account == a
  {
    debit, credit, rows := 0, 0, [];
    ghost var chosen := Active(accounts, r);
    for a := 0 to |accounts|
      invariant debit == DebitColumn(entries, chosen, a, asOf, branch)
          && credit == CreditColumn(entries, chosen, a, asOf, branch)
      invariant debit - credit == SumNet(entries, chosen, a)
      invariant forall k :: 0 <= k < |rows| ==>
                  && rows[k].account < a && chosen[rows[k].account]
                  && rows[k].debit - rows[k].credit == Everything(entries, rows[k].account)
      invariant forall x: nat :: x < a && chosen[x] && Everything(entries, x) != 0 ==>
                  exists k :: 0 <= k < |rows| && rows[k].account == x
    {
      if accounts[a].restaurant == r && accounts[a].active {
        var joined := LeftJoin(entries, a, asOf, branch);
        var d, c := SumDebit(joined), SumCredit(joined);
        JoinNet(entries, a, asOf, branch);
        if d != 0 || c != 0 {
          debit, credit := debit + d, credit + c;
          ghost var before := rows;
          rows := rows + [TrialRow(a, d, c)];
          assert rows[|rows| - 1].account == a;
          assert forall k :: 0 <= k < |before| ==> rows[k] == before[k];
        }
      }
    }
    isBalanced := debit == credit;
  }

  /** For every journal of balanced entries the trial balance agrees exactly when the restaurant's
      inactive accounts net to zero, whatever date and branch were asked for. */
  lemma {:induction false} TrialBalanceAgreesIff(entries: seq<Entry>, accounts: seq<Account>, r: nat)
    requires AllBalanced(entries) && PostsOwn(entries, accounts)
    ensures GroupNet(entries, Active(accounts, r)) == -GroupNet(entries, Inactive(accounts, r))
  {
    BooksBalance(entries, accounts, r);
    ByAccountIsByLine(entries, Of(accounts, r));
    SplitSum(entries, Of(accounts, r), Active(accounts, r), Inactive(accounts, r), |accounts|);
  }

  // ----- balance sheet -----

  predicate OnSheet(kind: Kind) { kind == Asset || kind == Liability || kind == Equity }

  /** The restaurant's active accounts of one kind. */
  function ActiveOf(accounts: seq<Account>, r: nat, kind: Kind): seq<bool> {
    seq(|accounts|, a requires 0 <= a < |accounts| =>
      accounts[a].restaurant == r && accounts[a].active && accounts[a].kind == kind)
  }

  function ActiveOnSheet(accounts: seq<Account>, r: nat): seq<bool> {
    seq(|accounts|, a requires 0 <= a < |accounts| =>
      accounts[a].restaurant == r && accounts[a].active && OnSheet(accounts[a].kind))
  }

  function InactiveOnSheet(accounts: seq<Account>, r: nat): seq<bool> {
    seq(|accounts|, a requires 0 <= a < |accounts| =>
      accounts[a].restaurant == r && !accounts[a].active && OnSheet(accounts[a].kind))
  }

  function OwnOnSheet(accounts: seq<Account>, r: nat): seq<bool> {
    seq(|accounts|, a requires 0 <= a < |accounts| => accounts[a].restaurant == r && OnSheet(accounts[a].kind))
  }

  /** Revenue and expense accounts, of any restaurant and active or not. */
  function OffSheet(accounts: seq<Account>): seq<bool> {
    seq(|accounts|, a requires 0 <= a < |accounts| => !OnSheet(accounts[a].kind))
  }

  function OwnOffSheet(accounts: seq<Account>, r: nat): seq<bool> {
    seq(|accounts|, a requires 0 <= a < |accounts| => accounts[a].restaurant == r && !OnSheet(accounts[a].kind))
  }

  predicate Earning(e: Entry, r: nat, asOf: int, branch: Option<nat>) {
    e.key.restaurant == r && Matches(e, asOf, branch)
  }

  /** Retained earnings: revenue less expense over the entries that pass the inner join. */
  function Retained(entries: seq<Entry>, accounts: seq<Account>, r: nat, asOf: int, branch: Option<nat>): int {
    if entries == [] then 0
    else
      var e := entries[|entries| - 1];
      Retained(entries[..|entries| - 1], accounts, r, asOf, branch)
      - if Earning(e, r, asOf, branch) then PostedTo(e.lines, OffSheet(accounts)) else 0
  }

  /** The earnings the inner join drops: those of the restaurant's entries that are reversed, later
      than the date or of another branch. */
  function Dropped(entries: seq<Entry>, accounts: seq<Account>, r: nat, asOf: int, branch: Option<nat>): int {
    if entries == [] then 0
    else
      var e := entries[|entries| - 1];
      Dropped(entries[..|entries| - 1], accounts, r, asOf, branch)
      - if e.key.restaurant == r && !Matches(e, asOf, branch) then PostedTo(e.lines, OffSheet(accounts)) else 0
  }

  method GetBalanceSheet(entries: seq<Entry>, accounts: seq<Account>, r: nat, asOf: int, branch: Option<nat>)
    returns (assets: int, liabilities: int, equity: int, isBalanced: bool)
    ensures assets == GroupNet(entries, ActiveOf(accounts, r, Asset))
    ensures liabilities == -GroupNet(entries, ActiveOf(accounts, r, Liability))
    ensures equity == -GroupNet(entries, ActiveOf(accounts, r, Equity)) + Retained(entries, accounts, r, asOf, branch)
    ensures isBalanced <==> assets == liabilities + equity
  {
    assets, liabilities, equity := 0, 0, 0;
    for a := 0 to |accounts|
      invariant assets == SumNet(entries, ActiveOf(accounts, r, Asset), a)
      invariant liabilities == -SumNet(entries, ActiveOf(accounts, r, Liability), a)
      invariant equity == -SumNet(entries, ActiveOf(accounts, r, Equity), a)
    {
      if accounts[a].restaurant == r && accounts[a].active && OnSheet(accounts[a].kind) {
        var joined := LeftJoin(entries, a, asOf, branch);
        var d, c := SumDebit(joined), SumCredit(joined);
        JoinNet(entries, a, asOf, branch);
        if d != 0 || c != 0 {
          match accounts[a].kind
          case Asset => assets := assets + (d - c);
          case Liability => liabilities := liabilities + (c - d);
          case _ => equity := equity + (c - d);
        }
      }
    }
    equity := equity + Retained(entries, accounts, r, asOf, branch);
    isBalanced := assets == liabilities + equity;
  }

  lemma {:induction false} SheetSum(entries: seq<Entry>, accounts: seq<Account>, r: nat, n: nat)
    requires n <= |accounts|
    ensures SumNet(entries, ActiveOnSheet(accounts, r), n)
         == SumNet(entries, ActiveOf(accounts, r, Asset), n) + SumNet(entries, ActiveOf(accounts, r, Liability), n)
            + SumNet(entries, ActiveOf(accounts, r, Equity), n)
  {
    if n > 0 { SheetSum(entries, accounts, r, n - 1); }
  }

  lemma {:induction false} OwnEarnings(lines: seq<Line>, accounts: seq<Account>, r: nat, r': nat)
    requires LinesOwned(lines, r', accounts)
    ensures PostedTo(lines, OwnOffSheet(accounts, r)) == if r == r' then PostedTo(lines, OffSheet(accounts)) else 0
  {
    if lines != [] { OwnEarnings(lines[..|lines| - 1], accounts, r, r'); }
  }

  lemma {:induction false} EarningsAreRetainedOrDropped(entries: seq<Entry>, accounts: seq<Account>, r: nat, asOf: int,
      branch: Option<nat>)
    requires PostsOwn(entries, accounts)
    ensures -AllPostedTo(entries, OwnOffSheet(accounts, r))
        == Retained(entries, accounts, r, asOf, branch) + Dropped(entries, accounts, r, asOf, branch)
  {
    if entries != [] {
      var n := |entries| - 1;
      EarningsAreRetainedOrDropped(entries[..n], accounts, r, asOf, branch);
      OwnEarnings(entries[n].lines, accounts, r, entries[n].key.restaurant);
    }
  }

  /** By how much the sheet's two sides differ, for every journal, date and branch: the earnings that
      were dropped, less what inactive accounts hold. So it balances exactly when these agree. */
  lemma {:induction false} SheetGap(entries: seq<Entry>, accounts: seq<Account>, r: nat, asOf: int, branch: Option<nat>)
    requires AllBalanced(entries) && PostsOwn(entries, accounts)
    ensures GroupNet(entries, ActiveOf(accounts, r, Asset)) + GroupNet(entries, ActiveOf(accounts, r, Liability))
        + GroupNet(entries, ActiveOf(accounts, r, Equity))
            - Retained(entries, accounts, r, asOf, branch)
         == Dropped(entries, accounts, r, asOf, branch) - GroupNet(entries, InactiveOnSheet(accounts, r))
  {
    var n := |accounts|;
    BooksBalance(entries, accounts, r);
    ByAccountIsByLine(entries, Of(accounts, r));
    ByAccountIsByLine(entries, OwnOffSheet(accounts, r));
    SplitSum(entries, Of(accounts, r), OwnOnSheet(accounts, r), OwnOffSheet(accounts, r), n);
    SplitSum(entries, OwnOnSheet(accounts, r), ActiveOnSheet(accounts, r), InactiveOnSheet(accounts, r), n);
    SheetSum(entries, accounts, r, n);
    EarningsAreRetainedOrDropped(entries, accounts, r, asOf, branch);
  }

  /** Nothing is dropped when every entry matches. */
  lemma {:induction false} NothingDropped(entries: seq<Entry>, accounts: seq<Account>, r: nat, asOf: int)
    requires forall i :: 0 <= i < |entries| ==> entries[i].reversedBy.None? && entries[i].date <= asOf
    ensures Dropped(entries, accounts, r, asOf, None) == 0
  {
    if entries != [] { NothingDropped(entries[..|entries| - 1], accounts, r, asOf); }
  }

  /** Every line posts to an active account. */
  ghost predicate PostsActive(entries: seq<Entry>, accounts: seq<Account>) {
    forall i :: 0 <= i < |entries| ==> LinesActive(entries[i].lines, accounts)
  }

  predicate LinesActive(lines: seq<Line>, accounts: seq<Account>) {
    forall k :: 0 <= k < |lines| ==> lines[k].account < |accounts| && accounts[lines[k].account].active
  }

  predicate OnlyInactive(chosen: seq<bool>, accounts: seq<Account>) {
    |chosen| == |accounts| && forall a :: 0 <= a < |chosen| && chosen[a] ==> !accounts[a].active
  }

  /** Inactive accounts without postings hold nothing. */
  lemma {:induction false} UnusedHoldNothing(entries: seq<Entry>, accounts: seq<Account>, chosen: seq<bool>)
    requires PostsActive(entries, accounts) && OnlyInactive(chosen, accounts)
    ensures GroupNet(entries, chosen) == 0
  {
    ByAccountIsByLine(entries, chosen);
    if entries != [] {
      var n := |entries| - 1;
      UnusedHoldNothing(entries[..n], accounts, chosen);
      ByAccountIsByLine(entries[..n], chosen);
      UnusedLines(entries[n].lines, accounts, chosen);
    }
  }

  lemma {:induction false} UnusedLines(lines: seq<Line>, accounts: seq<Account>, chosen: seq<bool>)
    requires LinesActive(lines, accounts) && OnlyInactive(chosen, accounts)
    ensures PostedTo(lines, chosen) == 0
  {
    if lines != [] { UnusedLines(lines[..|lines| - 1], accounts, chosen); }
  }

  /** With every posted account active the trial balance always agrees. */
  lemma {:induction false} TrialBalances(entries: seq<Entry>, accounts: seq<Account>, r: nat)
    requires AllBalanced(entries) && PostsOwn(entries, accounts) && PostsActive(entries, accounts)
    ensures GroupNet(entries, Active(accounts, r)) == 0
  {
    TrialBalanceAgreesIff(entries, accounts, r);
    UnusedHoldNothing(entries, accounts, Inactive(accounts, r));
  }

  /** With every posted account active, nothing reversed, no branch filter and a date on or after
      every entry: assets equal liabilities plus equity, retained earnings included. */
  lemma {:induction false} SheetBalances(entries: seq<Entry>, accounts: seq<Account>, r: nat, asOf: int)
    requires AllBalanced(entries) && PostsOwn(entries, accounts) && PostsActive(entries, accounts)
    requires forall i :: 0 <= i < |entries| ==> entries[i].reversedBy.None? && entries[i].date <= asOf
    ensures GroupNet(entries, ActiveOf(accounts, r, Asset))
         == -GroupNet(entries, ActiveOf(accounts, r, Liability)) - GroupNet(entries, ActiveOf(accounts, r, Equity))
            + Retained(entries, accounts, r, asOf, None)
  {
    SheetGap(entries, accounts, r, asOf, None);
    NothingDropped(entries, accounts, r, asOf);
    UnusedHoldNothing(entries, accounts, InactiveOnSheet(accounts, r));
  }

  // ----- reversals upset the sheet -----

  lemma {:induction false} MarkedIsDropped(entries: seq<Entry>, after: seq<Entry>, accounts: seq<Account>, r: nat,
      asOf: int, branch: Option<nat>, id: nat)
    requires |entries| == |after| && forall i :: 0 <= i < |entries| && i != id ==> after[i] == entries[i]
    requires id < |entries| ==> after[id] == entries[id].(reversedBy := after[id].reversedBy)
    requires id < |entries| ==> after[id].reversedBy.Some? && Matches(entries[id], asOf, branch)
    ensures Dropped(after, accounts, r, asOf, branch)
         == Dropped(entries, accounts, r, asOf, branch)
            - if id < |entries| && entries[id].key.restaurant == r then PostedTo(entries[id].lines, OffSheet(accounts)) else 0
  {
    if entries != [] {
      var n := |entries| - 1;
      MarkedIsDropped(entries[..n], after[..n], accounts, r, asOf, branch, id);
    }
  }

  /** Reversing an entry that counted, with a reversal that counts too, drops the original's earnings
      and keeps those of the reversal: the sheet moves off balance by exactly the earnings of the
      entry, so it stays balanced only if the entry had none. */
  lemma {:induction false} ReversalUpsetsTheSheet(b: Books, accounts: seq<Account>, r: nat, asOf: int,
      branch: Option<nat>, id: nat, today: int)
    requires ReversalVerdict(b, id, today).Posted? && b.entries[id].key.restaurant == r
    requires Matches(b.entries[id], asOf, branch) && today <= asOf
    ensures Dropped(Reverse(b, id, today).entries, accounts, r, asOf, branch)
         == Dropped(b.entries, accounts, r, asOf, branch) - PostedTo(b.entries[id].lines, OffSheet(accounts))
  {
    var after, n := Reverse(b, id, today).entries, |b.entries|;
    MarkedIsDropped(b.entries, after[..n], accounts, r, asOf, branch, id);
    assert after[n] == ReversalOf(b.entries, id, today) && Matches(after[n], asOf, branch);
  }

  // ----- every run -----

  /** Codes resolve to accounts of the restaurant that is asked for. */
  ghost predicate ChartIsOwn(chart: Chart, accounts: seq<Account>) {
    forall k :: k in chart ==> chart[k] < |accounts| && accounts[chart[k]].restaurant == k.0
  }

  lemma {:induction false} StepPostsOwn(b: Books, op: Op, accounts: seq<Account>)
    requires PostsOwn(b.entries, accounts) && (op.Create? ==> ChartIsOwn(op.chart, accounts))
    ensures PostsOwn(Step(b, op).entries, accounts)
  {
    match op
    case Create(req, chart) =>
      if Verdict(b, req, chart).Posted? {
        var lines, r := Resolved(chart, req.key.restaurant, req.lines), req.key.restaurant;
        forall k | 0 <= k < |lines|
          ensures lines[k].account < |accounts| && accounts[lines[k].account].restaurant == r
        {
          assert (r, req.lines[k].code) in chart;
        }
      }
    case ReverseOp(id, today) =>
      if ReversalVerdict(b, id, today).Posted? {
        assert LinesOwned(b.entries[id].lines, b.entries[id].key.restaurant, accounts);
      }
    case _ =>
  }

  /** So what the reports need holds of every journal that postings, reversals and period changes can
      reach. */
  lemma {:induction false} RunPostsOwn(b: Books, ops: seq<Op>, accounts: seq<Account>)
    requires Inv(b) && PostsOwn(b.entries, accounts)
    requires forall i :: 0 <= i < |ops| && ops[i].Create? ==> ChartIsOwn(ops[i].chart, accounts)
    ensures AllBalanced(Run(b, ops).entries) && PostsOwn(Run(b, ops).entries, accounts)
  {
    RunKeepsInv(b, ops);
    if ops != [] {
      var n := |ops| - 1;
      RunPostsOwn(b, ops[..n], accounts);
      StepPostsOwn(Run(b, ops[..n]), ops[n], accounts);
    }
  }

  // ----- a reversed order -----

  const TWO_ACCOUNTS := [Account(0, Asset, true), Account(0, Revenue, true)]

  const TWO_CODES: Chart := map[(0, "ACCOUNTS_RECEIVABLE") := 0, (0, "FOOD_SALES") := 1]

  const NO_BOOKS := Books([], map[])

  /** An order of restaurant 0, posted on day 0. */
  function Sale(order: string, amount: int): JournalBuilders.Call {
    JournalBuilders.Call(JournalBuilders.OrderCreated, 0, None, order, amount, 0)
  }

  function SaleEntry(order: string, amount: int): Entry {
    Entry(Key(0, Order, Given(order)), None, 0, [Line(0, amount, 0), Line(1, 0, amount)], None, None)
  }

  lemma {:induction false} SaleIsPosted(order: string, amount: int)
    requires order != "" && amount > 0
    ensures JournalBuilders.Record(NO_BOOKS, Sale(order, amount), TWO_CODES) == Books([SaleEntry(order, amount)], map[])
  {
    var call := Sale(order, amount);
    JournalBuilders.RecordOne(NO_BOOKS, call, TWO_CODES);
    var lines := JournalBuilders.LinesOf(call);
    assert lines == [CodedLine("ACCOUNTS_RECEIVABLE", amount, 0), CodedLine("FOOD_SALES", 0, amount)];
    assert Resolved(TWO_CODES, 0, lines) == [Line(0, amount, 0), Line(1, 0, amount)];
    assert [] + [SaleEntry(order, amount)] == [SaleEntry(order, amount)];
  }

  lemma {:induction false} SaleFacts(order: string, amount: int)
    requires order != "" && amount > 0
    ensures var b := Books([SaleEntry(order, amount)], map[]);
            && Inv(b) && PostsOwn(b.entries, TWO_ACCOUNTS)
            && PostedTo(b.entries[0].lines, OffSheet(TWO_ACCOUNTS)) == -amount
            && Dropped(b.entries, TWO_ACCOUNTS, 0, 1, None) == 0
            && ReversalVerdict(b, 0, 1).Posted?
  {
    var e := SaleEntry(order, amount);
    TwoLines(Line(0, amount, 0), Line(1, 0, amount), OffSheet(TWO_ACCOUNTS));
    assert [e][..0] == [];
  }

  lemma {:induction false} TwoLines(a: Line, b: Line, chosen: seq<bool>)
    ensures Debits([a, b]) == a.debit + b.debit && Credits([a, b]) == a.credit + b.credit
    ensures PostedTo([a, b], chosen)
         == (if a.account < |chosen| && chosen[a.account] then a.debit - a.credit else 0)
            + if b.account < |chosen| && chosen[b.account] then b.debit - b.credit else 0
  {
    assert [a, b][..1] == [a] && [a][..0] == [];
    assert Debits([]) == 0 && Credits([]) == 0 && PostedTo([], chosen) == 0;
    assert Debits([a]) == a.debit;
    assert Credits([a]) == a.credit;
    assert PostedTo([a], chosen) == if a.account < |chosen| && chosen[a.account] then a.debit - a.credit else 0;
  }

  /** One order, posted by its builder and reversed the next day: the sheet of that day is off by the
      amount of the order. */
  lemma {:induction false} ReversedOrderUpsetsTheSheet(order: string, amount: int)
    requires order != "" && amount > 0
    ensures var entries := Reverse(JournalBuilders.Record(NO_BOOKS, Sale(order, amount), TWO_CODES), 0, 1).entries;
            var assets := GroupNet(entries, ActiveOf(TWO_ACCOUNTS, 0, Asset));
            var liabilities := -GroupNet(entries, ActiveOf(TWO_ACCOUNTS, 0, Liability));
            var equity := -GroupNet(entries, ActiveOf(TWO_ACCOUNTS, 0, Equity)) + Retained(entries, TWO_ACCOUNTS, 0, 1, None);
            assets == liabilities + equity + amount
  {
    var b := Books([SaleEntry(order, amount)], map[]);
    SaleIsPosted(order, amount);
    SaleFacts(order, amount);
    var after := Reverse(b, 0, 1).entries;
    ReverseKeepsKeys(b, 0, 1);
    StepPostsOwn(b, ReverseOp(0, 1), TWO_ACCOUNTS);
    ReversalUpsetsTheSheet(b, TWO_ACCOUNTS, 0, 1, None, 0, 1);
    SheetGap(after, TWO_ACCOUNTS, 0, 1, None);
    NoInactive(after);
  }

  lemma {:induction false} NoInactive(entries: seq<Entry>)
    ensures GroupNet(entries, InactiveOnSheet(TWO_ACCOUNTS, 0)) == 0
  {
    var chosen := InactiveOnSheet(TWO_ACCOUNTS, 0);
    assert SumNet(entries, chosen, 0) == 0;
    assert SumNet(entries, chosen, 1) == 0;
  }
}
