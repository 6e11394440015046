/** Splitting a bill into shares. Amounts are integer paise. */
module BillSplit {

  import opened Basics

  datatype Error = NothingPayable | BadParts | RowsRequired | NoPositiveAmount | ExceedsTotal | NoUsers | BadType

  /** A label is the one given, the position of the row, or that of the unallocated rest. */
  datatype Label = Named(name: string) | Numbered(index: nat) | Unallocated

  datatype Share = Share(payer: Label, amount: int)

  datatype Row = Row(name: string, amount: int)

  datatype Request =
    | Equal(parts: int)
    | ByItem(items: seq<Row>)
    | ByUser(rows: seq<Row>, users: seq<string>)
    | Other

  function Total(shares: seq<Share>): int {
    if shares == [] then 0 else Total(shares[..|shares| - 1]) + shares[|shares| - 1].amount
  }

  lemma {:induction false} TotalAppend(shares: seq<Share>, s: Share)
    ensures Total(shares + [s]) == Total(shares) + s.amount
  {
    assert (shares + [s])[..|shares|] == shares;
  }

  // ----- rounding -----

  /** `g / n` rounded to an integer, ties to even. */
  function HalfEven(g: int, n: int): int
    requires n > 0
  {
    var q, r := g / n, g % n;
    if 2 * r < n || (2 * r == n && q % 2 == 0) then q else q + 1
  }

  /** The nearest integers to `g / n`, even on a tie; there is exactly one. */
  predicate NearestEven(g: int, n: int, p: int) {
    && -n <= 2 * (g - n * p) <= n
    && (2 * (g - n * p) == n || 2 * (g - n * p) == -n ==> p % 2 == 0)
  }

  lemma {:induction false} HalfEvenIsNearest(g: int, n: int)
    requires n > 0
    ensures NearestEven(g, n, HalfEven(g, n))
  {
    var q, r, p := g / n, g % n, HalfEven(g, n);
    assert g == n * q + r;
    assert n * (q + 1) == n * q + n;
    assert g - n * p == if p == q then r else r - n;
  }

  lemma Multiple(n: int, d: int)
    requires n > 0
    ensures d >= 2 ==> n * d >= 2 * n
    ensures d <= -2 ==> n * d <= -2 * n
    ensures d == 1 ==> n * d == n
    ensures d == -1 ==> n * d == -n
  {
  }

  /** The same on the two rounding errors `e` and `e - m`, where `m` stands for `n * d`. */
  lemma NoOtherNearest(n: int, e: int, m: int, p: int, d: int)
    requires n > 0 && -n <= 2 * e <= n && -n <= 2 * (e - m) <= n
    requires 2 * e == n || 2 * e == -n ==> p % 2 == 0
    requires 2 * (e - m) == n || 2 * (e - m) == -n ==> (p + d) % 2 == 0
    requires (d >= 2 ==> m >= 2 * n) && (d <= -2 ==> m <= -2 * n) && (d == 1 ==> m == n) && (d == -1 ==> m == -n)
    ensures d == 0
  {
  }

  lemma {:induction false} NearestIsUnique(g: int, n: int, p: int, p': int)
    requires n > 0 && NearestEven(g, n, p) && NearestEven(g, n, p')
    ensures p == p'
  {
    var d := p' - p;
    Multiple(n, d);
    assert g - n * p' == (g - n * p) - n * d by { assert n * (p + d) == n * p + n * d; }
    NoOtherNearest(n, g - n * p, n * d, p, d);
  }

  // ----- equal shares -----

  lemma {:induction false} TotalOfEqual(shares: seq<Share>, per: int)
    requires forall i :: 0 <= i < |shares| ==> shares[i].amount == per
    ensures Total(shares) == per * |shares|
  {
    if shares != [] { TotalOfEqual(shares[..|shares| - 1], per); }
  }

  lemma {:induction false} TotalUpdate(shares: seq<Share>, i: nat, s: Share)
    requires i < |shares|
    ensures Total(shares[i := s]) == Total(shares) - shares[i].amount + s.amount
  {
    var n := |shares| - 1;
    if i < n {
      TotalUpdate(shares[..n], i, s);
      assert shares[i := s][..n] == shares[..n][i := s];
    } else {
      assert shares[i := s][..n] == shares[..n];
    }
  }

  /** What an equal split promises: one share per label, the grand total exactly, every share but the
      first the nearest amount, and the first off by at most half a paisa for each part. */
  ghost predicate SplitsEqually(grand: int, labels: seq<Label>, shares: seq<Share>) {
    exists per :: SplitsBy(per, grand, labels, shares)
  }

  predicate SplitsBy(per: int, grand: int, labels: seq<Label>, shares: seq<Share>) {
    && |shares| == |labels| > 0
    && (forall i :: 0 <= i < |labels| ==> shares[i].payer == labels[i])
    && (forall i :: 1 <= i < |labels| ==> shares[i].amount == per)
    && Total(shares) == grand
    && NearestEven(grand, |labels|, per)
    && -|labels| <= 2 * (shares[0].amount - per) <= |labels|
  }

  method EqualShares(grand: int, labels: seq<Label>) returns (shares: seq<Share>)
    requires labels != []
    ensures SplitsEqually(grand, labels, shares)
  {
    var n := |labels|;
    var per := HalfEven(grand, n);
    HalfEvenIsNearest(grand, n);
    shares := seq(n, i requires 0 <= i < n => Share(labels[i], per));
    TotalOfEqual(shares, per);
    var delta := grand - per * n;
    if delta != 0 {
      TotalUpdate(shares, 0, Share(labels[0], per + delta));
      shares := shares[0 := shares[0].(amount := shares[0].amount + delta)];
    }
    assert SplitsBy(per, grand, labels, shares);
  }

  /** The promise determines every share, so nothing else is left to choose. */
  lemma {:induction false} EqualSplitIsUnique(grand: int, labels: seq<Label>, xs: seq<Share>, ys: seq<Share>)
    requires SplitsEqually(grand, labels, xs) && SplitsEqually(grand, labels, ys)
    ensures xs == ys
  {
    var p :| SplitsBy(p, grand, labels, xs);
    var p' :| SplitsBy(p', grand, labels, ys);
    NearestIsUnique(grand, |labels|, p, p');
    TotalUpdate(xs, 0, ys[0]);
    assert xs[0 := ys[0]] == ys;
  }

  function First(grand: int, n: int): int
    requires n > 0
  {
    grand - HalfEven(grand, n) * (n - 1)
  }

  lemma {:induction false} FirstShare(per: int, grand: int, labels: seq<Label>, shares: seq<Share>)
    requires SplitsBy(per, grand, labels, shares)
    ensures per == HalfEven(grand, |labels|)
    ensures shares[0].amount == First(grand, |labels|)
  {
    TotalUpdate(shares, 0, Share(labels[0], per));
    TotalOfEqual(shares[0 := Share(labels[0], per)], per);
    HalfEvenIsNearest(grand, |labels|);
    NearestIsUnique(grand, |labels|, per, HalfEven(grand, |labels|));
  }

  /** The rounding that makes every other share a paisa more than the exact quotient. */
  predicate RoundsUp(q: int, r: int, n: int) { 2 * r > n || (2 * r == n && q % 2 == 1) }

  predicate FallsShort(q: int, r: int, n: int) { RoundsUp(q, r, n) && q + r + 1 < n }

  /** Exactly when the first share is negative, in terms of the quotient and the remainder. */
  lemma {:induction false} FirstShareNegativeIff(grand: int, labels: seq<Label>, shares: seq<Share>)
    requires grand > 0 && SplitsEqually(grand, labels, shares)
    ensures var n := |labels|;
            var q, r := grand / n, grand % n;
            shares[0].amount < 0 <==> FallsShort(q, r, n)
  {
    var per :| SplitsBy(per, grand, labels, shares);
    FirstShare(per, grand, labels, shares);
    FirstByQuotient(grand, |labels|);
  }

  lemma {:induction false} FirstByQuotient(grand: int, n: int)
    requires n > 0 && grand > 0
    ensures First(grand, n) < 0 <==> FallsShort(grand / n, grand % n, n)
  {
    var q, r := grand / n, grand % n;
    assert grand == n * q + r;
    assert q * (n - 1) == n * q - q;
    assert (q + 1) * (n - 1) == n * q - q + n - 1;
  }

  lemma Product(n: int, q: int, k: int)
    requires n > 0 && 2 * q <= n - k
    ensures 2 * (n * q) <= n * (n - 1) - n * (k - 1)
  {
    assert n * (n - k - 2 * q) >= 0;
    assert n * (n - k - 2 * q) == n * (n - 1) - n * (k - 1) - 2 * (n * q);
  }

  /** A bill of at least a paisa for each pair of parts gives no negative share. */
  lemma {:induction false} FirstShareNotNegative(grand: int, labels: seq<Label>, shares: seq<Share>)
    requires grand > 0 && SplitsEqually(grand, labels, shares)
    requires 2 * grand >= |labels| * (|labels| - 1)
    ensures shares[0].amount >= 0
  {
    var n := |labels|;
    FirstShareNegativeIff(grand, labels, shares);
    NotSmall(grand, n);
  }

  lemma {:induction false} NotSmall(grand: int, n: int)
    requires n > 0 && grand > 0
    ensures var q, r := grand / n, grand % n;
            FallsShort(q, r, n) ==> 2 * grand < n * (n - 1)
  {
    var q, r := grand / n, grand % n;
    assert grand == n * q + r;
    if FallsShort(q, r, n) {
      Product(n, q, 4);
    }
  }

  // ----- shares by item and by user -----

  function LabelOf(row: Row, i: nat): Label { if row.name != "" then Named(row.name) else Numbered(i + 1) }

  /** The positive rows in their order. */
  function Kept(rows: seq<Row>): seq<Share> {
    if rows == [] then []
    else
      var n := |rows| - 1;
      Kept(rows[..n]) + if rows[n].amount <= 0 then [] else [Share(LabelOf(rows[n], n), rows[n].amount)]
  }

  predicate FromRow(s: Share, rows: seq<Row>, i: nat) {
    i < |rows| && rows[i].amount > 0 && s == Share(LabelOf(rows[i], i), rows[i].amount)
  }

  /** Every kept share is positive and comes from a row, and each positive row is kept. */
  lemma {:induction false} KeptFromRows(rows: seq<Row>, s: Share)
    ensures s in Kept(rows) <==> exists i: nat :: FromRow(s, rows, i)
  {
    if rows != [] {
      var n := |rows| - 1;
      KeptFromRows(rows[..n], s);
      assert forall i: nat :: i < n ==> (FromRow(s, rows, i) <==> FromRow(s, rows[..n], i));
      assert FromRow(s, rows, n) <==> rows[n].amount > 0 && s == Share(LabelOf(rows[n], n), rows[n].amount);
      assert forall i: nat :: FromRow(s, rows[..n], i) ==> FromRow(s, rows, i);
    }
  }

  lemma {:induction false} KeptTotal(rows: seq<Row>)
    ensures Total(Kept(rows)) >= 0
    ensures Total(Kept(rows)) == 0 <==> !SomePositive(rows)
    ensures forall s :: s in Kept(rows) ==> s.amount > 0
  {
    if rows != [] {
      var n := |rows| - 1;
      var front, last := rows[..n], Share(LabelOf(rows[n], n), rows[n].amount);
      KeptTotal(front);
      SomePositiveSnoc(rows);
      if rows[n].amount <= 0 {
        assert Kept(rows) == Kept(front);
      } else {
        assert Kept(rows) == Kept(front) + [last];
        TotalAppend(Kept(front), last);
      }
    }
  }

  lemma SomePositiveSnoc(rows: seq<Row>)
    requires rows != []
    ensures SomePositive(rows) <==> SomePositive(rows[..|rows| - 1]) || rows[|rows| - 1].amount > 0
  {
    var front := rows[..|rows| - 1];
    assert forall i :: 0 <= i < |front| ==> front[i] == rows[i];
  }

  predicate SomePositive(rows: seq<Row>) { exists i :: 0 <= i < |rows| && rows[i].amount > 0 }

  /** The loop over the rows: the kept shares and their total. */
  method KeepPositive(rows: seq<Row>) returns (shares: seq<Share>, total: int)
    ensures shares == Kept(rows) && total == Total(shares)
  {
    shares, total := [], 0;
    for i := 0 to |rows|
      invariant shares == Kept(rows[..i]) && total == Total(shares)
    {
      assert rows[..i + 1][..i] == rows[..i];
      var row := rows[i];
      if row.amount <= 0 {
        continue;
      }
      total := total + row.amount;
      TotalAppend(shares, Share(LabelOf(row, i), row.amount));
      shares := shares + [Share(LabelOf(row, i), row.amount)];
    }
    assert rows[..|rows|] == rows;
  }

  /** The kept shares, followed by the unallocated rest if there is one. */
  function WithRest(shares: seq<Share>, rest: int): seq<Share> {
    if rest > 0 then shares + [Share(Unallocated, rest)] else shares
  }

  lemma {:induction false} RestFills(rows: seq<Row>, grand: int)
    requires Total(Kept(rows)) <= grand
    ensures var all := WithRest(Kept(rows), grand - Total(Kept(rows)));
            && Total(all) == grand
            && (forall s :: s in all ==> s.amount > 0)
            && Kept(rows) <= all
  {
    KeptTotal(rows);
    TotalAppend(Kept(rows), Share(Unallocated, grand - Total(Kept(rows))));
  }

  method RowShares(grand: int, rows: seq<Row>) returns (r: Result<seq<Share>, Error>)
    requires grand > 0
    ensures r == Err(NoPositiveAmount) <==> !SomePositive(rows)
    ensures r == Err(ExceedsTotal) <==> Total(Kept(rows)) > grand
    ensures r.Err? ==> r.error in {NoPositiveAmount, ExceedsTotal}
    ensures r.Ok? ==> r.value == WithRest(Kept(rows), grand - Total(Kept(rows))) && Total(r.value) == grand
  {
    var shares, total := KeepPositive(rows);
    KeptTotal(rows);
    if total <= 0 {
      return Err(NoPositiveAmount);
    }
    if total > grand {
      return Err(ExceedsTotal);
    }
    RestFills(rows, grand);
    if total < grand {
      shares := shares + [Share(Unallocated, grand - total)];
    }
    r := Ok(shares);
  }

  /** When a request can be split at all. */
  predicate Accepted(grand: int, req: Request) {
    && grand > 0
    && match req
       case Equal(parts) => parts > 0
       case ByItem(items) => SomePositive(items) && Total(Kept(items)) <= grand
       case ByUser(rows, users) => if rows == [] then users != [] else SomePositive(rows) && Total(Kept(rows)) <= grand
       case Other => false
  }

  /** Every successful split sums to the grand total, and a split fails exactly when it is refused. */
  method SplitBill(grand: int, req: Request) returns (r: Result<seq<Share>, Error>)
    ensures r.Ok? <==> Accepted(grand, req)
    ensures r.Ok? ==> Total(r.value) == grand
    ensures r.Ok? && req.Equal? ==>
              SplitsEqually(grand, seq(req.parts, i requires i >= 0 => Numbered(i + 1)), r.value)
    ensures r.Ok? && req.ByUser? && req.rows == [] ==>
              SplitsEqually(grand, seq(|req.users|, i requires 0 <= i < |req.users| => Named(req.users[i])), r.value)
    ensures r.Ok? && (req.ByItem? || (req.ByUser? && req.rows != [])) ==>
              var kept := Kept(if req.ByItem? then req.items else req.rows);
              r.value == WithRest(kept, grand - Total(kept))
  {
    if grand <= 0 {
      return Err(NothingPayable);
    }
    match req
    case Equal(parts) =>
      if parts <= 0 {
        return Err(BadParts);
      }
      var shares := EqualShares(grand, seq(parts, i requires i >= 0 => Numbered(i + 1)));
      r := Ok(shares);
    case ByItem(items) =>
      if items == [] {
        return Err(RowsRequired);
      }
      r := RowShares(grand, items);
    case ByUser(rows, users) =>
      if rows != [] {
        r := RowShares(grand, rows);
      } else if users == [] {
        r := Err(NoUsers);
      } else {
        var shares := EqualShares(grand, seq(|users|, i requires 0 <= i < |users| => Named(users[i])));
        r := Ok(shares);
      }
    case Other =>
      r := Err(BadType);
  }
}
