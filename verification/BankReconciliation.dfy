/** Reconciliation of bank statement lines with journal entries of one restaurant.

    Amounts are paise and dates are day numbers; reference and description texts are held
    lower-cased, as both sides of every comparison are. */
module BankReconciliation {

  type StmtId = nat
  type EntryId = nat

  datatype Status = Unmatched | Matched | Excluded

  datatype Statement = Statement(date: int, amount: int, reference: string, description: string, status: Status)

  /** `onBank`: the line posts to the UPI, cash or card account. */
  datatype Line = Line(onBank: bool, debit: nat, credit: nat)

  datatype Entry = Entry(date: int, referenceId: string, description: string, reversed: bool, lines: seq<Line>)

  type Links = set<(StmtId, EntryId)>

  // ----- candidates and scores -----

  function BankDebit(lines: seq<Line>): nat {
    if lines == [] then 0
    else (if lines[0].onBank && lines[0].debit > 0 then lines[0].debit else 0) + BankDebit(lines[1..])
  }

  function BankCredit(lines: seq<Line>): nat {
    if lines == [] then 0
    else (if lines[0].onBank && lines[0].credit > 0 then lines[0].credit else 0) + BankCredit(lines[1..])
  }

  function Abs(x: int): nat { if x < 0 then -x else x }

  /** The conditions of the candidate query other than "not yet reconciled". A positive line looks
      for a debited total, any other for a credited one; an entry without such a line has no group. */
  predicate Compatible(s: Statement, e: Entry, tolerance: int) {
    && s.date - tolerance <= e.date <= s.date + tolerance
    && !e.reversed
    && (if s.amount > 0 then BankDebit(e.lines) == s.amount
        else BankCredit(e.lines) == -s.amount && BankCredit(e.lines) > 0)
  }

  predicate Occurs(text: string, part: string, i: int)
    requires 0 <= i <= |text| - |part|
  {
    text[i..i + |part|] == part
  }

  predicate Contains(text: string, part: string) {
    exists i :: 0 <= i <= |text| - |part| && Occurs(text, part, i)
  }

  function Score(s: Statement, e: Entry): (score: nat)
    ensures 60 <= score <= 100
  {
    var days := Abs(e.date - s.date);
    60 + (if days >= 2 then 0 else 20 - days * 10)
    + (if s.reference != "" && (Contains(e.referenceId, s.reference) || Contains(e.description, s.reference)) then 20
       else if s.description != "" && (Contains(s.description, e.referenceId) || Contains(s.description, e.description)) then 10
       else 0)
  }

  predicate Reconciled(links: Links, e: EntryId) { exists l :: l in links && l.1 == e }
  predicate HasLink(links: Links, s: StmtId) { exists l :: l in links && l.0 == s }

  lemma Linked(links: Links, l: (StmtId, EntryId))
    ensures forall s :: HasLink(links + {l}, s) <==> HasLink(links, s) || s == l.0
    ensures forall e :: Reconciled(links + {l}, e) <==> Reconciled(links, e) || e == l.1
  {
    assert l in links + {l};
    forall s ensures HasLink(links + {l}, s) <==> HasLink(links, s) || s == l.0 {
      if HasLink(links, s) { var x :| x in links && x.0 == s; assert x in links + {l}; }
    }
    forall e ensures Reconciled(links + {l}, e) <==> Reconciled(links, e) || e == l.1 {
      if Reconciled(links, e) { var x :| x in links && x.1 == e; assert x in links + {l}; }
    }
  }

  lemma LinkedBeforeOrAdded(base: Links, links: Links)
    requires base <= links
    ensures forall s :: HasLink(links, s) <==> HasLink(base, s) || HasLink(links - base, s)
    ensures forall e :: Reconciled(links, e) <==> Reconciled(base, e) || Reconciled(links - base, e)
  {
    forall s ensures HasLink(links, s) <==> HasLink(base, s) || HasLink(links - base, s) {
      if HasLink(links, s) { var x :| x in links && x.0 == s; assert x in base || x in links - base; }
    }
    forall e ensures Reconciled(links, e) <==> Reconciled(base, e) || Reconciled(links - base, e) {
      if Reconciled(links, e) { var x :| x in links && x.1 == e; assert x in base || x in links - base; }
    }
  }

  /** The candidate query; `listing` is the order in which the database returns entries. */
  function Candidates(s: Statement, entries: map<EntryId, Entry>, listing: seq<EntryId>, links: Links,
      tolerance: int): (c: seq<EntryId>)
    requires forall e :: e in listing ==> e in entries
    ensures forall e :: e in c <==> e in listing && Compatible(s, entries[e], tolerance) && !Reconciled(links, e)
  {
    if listing == [] then []
    else
      var rest := Candidates(s, entries, listing[1..], links, tolerance);
      var e := listing[0];
      assert listing == [e] + listing[1..];
      if Compatible(s, entries[e], tolerance) && !Reconciled(links, e) then [e] + rest else rest
  }

  /** `best` is the earliest candidate of the highest score. */
  ghost predicate IsBest(s: Statement, entries: map<EntryId, Entry>, c: seq<EntryId>, k: nat)
    requires forall e :: e in c ==> e in entries
  {
    && k < |c|
    && (forall j :: 0 <= j < |c| ==> Score(s, entries[c[j]]) <= Score(s, entries[c[k]]))
    && (forall j :: 0 <= j < k ==> Score(s, entries[c[j]]) < Score(s, entries[c[k]]))
  }

  function BestIndex(s: Statement, entries: map<EntryId, Entry>, c: seq<EntryId>): (k: nat)
    requires c != [] && forall e :: e in c ==> e in entries
    ensures k < |c|
  {
    if |c| == 1 then 0
    else
      var n := |c| - 1;
      var k := BestIndex(s, entries, c[..n]);
      if Score(s, entries[c[n]]) > Score(s, entries[c[k]]) then n else k
  }

  lemma {:induction false} BestIndexIsBest(s: Statement, entries: map<EntryId, Entry>, c: seq<EntryId>)
    requires c != [] && forall e :: e in c ==> e in entries
    ensures IsBest(s, entries, c, BestIndex(s, entries, c))
  {
    if |c| > 1 {
      var n := |c| - 1;
      BestIndexIsBest(s, entries, c[..n]);
      assert forall j :: 0 <= j < n ==> c[..n][j] == c[j];
    }
  }

  /** The scan over the candidates of one line: `bestScore` starts at 0 and only a strictly higher
      score replaces the best one, so a non-empty list always yields a match. */
  method PickBest(s: Statement, entries: map<EntryId, Entry>, c: seq<EntryId>)
      returns (found: bool, best: EntryId, bestScore: nat)
    requires forall e :: e in c ==> e in entries
    ensures found <==> c != []
    ensures found ==> best == c[BestIndex(s, entries, c)] && bestScore == Score(s, entries[best])
  {
    found, best, bestScore := false, 0, 0;
    for i := 0 to |c|
      invariant found <==> i > 0
      invariant !found ==> bestScore == 0
      invariant found ==> best == c[BestIndex(s, entries, c[..i])] && bestScore == Score(s, entries[best])
    {
      assert c[..i + 1][..i] == c[..i];
      var score := Score(s, entries[c[i]]);
      if score > bestScore {
        found, best, bestScore := true, c[i], score;
      }
    }
    assert c[..|c|] == c;
  }

  // ----- the greedy pass as a function -----

  /** Each query lists all entries, in an order of its own. */
  ghost predicate Lists(listing: seq<EntryId>, entries: map<EntryId, Entry>) {
    forall e :: e in listing <==> e in entries
  }

  /** One listing for each line of the pass. */
  ghost predicate AllList(listings: seq<seq<EntryId>>, order: seq<StmtId>, entries: map<EntryId, Entry>) {
    |listings| == |order| && forall i :: 0 <= i < |listings| ==> Lists(listings[i], entries)
  }

  /** Links after the pass has handled the lines `order`, starting from `base`. */
  ghost function Greedy(stmts: map<StmtId, Statement>, entries: map<EntryId, Entry>, order: seq<StmtId>,
                        listings: seq<seq<EntryId>>, base: Links, tolerance: int): Links
    requires forall s :: s in order ==> s in stmts
    requires AllList(listings, order, entries)
  {
    if order == [] then base
    else
      var n := |order| - 1;
      var links := Greedy(stmts, entries, order[..n], listings[..n], base, tolerance);
      MatchOne(stmts[order[n]], order[n], entries, listings[n], links, tolerance)
  }

  function MatchOne(s: Statement, id: StmtId, entries: map<EntryId, Entry>, listing: seq<EntryId>, links: Links,
      tolerance: int): Links
    requires forall e :: e in listing ==> e in entries
  {
    var c := Candidates(s, entries, listing, links, tolerance);
    if c == [] then links else links + {(id, c[BestIndex(s, entries, c)])}
  }

  ghost predicate OneToOne(m: Links) {
    forall a, b :: a in m && b in m && (a.0 == b.0 || a.1 == b.1) ==> a == b
  }

  predicate Distinct(ids: seq<nat>) { forall i, j :: 0 <= i < j < |ids| ==> ids[i] != ids[j] }

  /** What the pass has added so far: compatible pairs, one per line and one per entry, of lines it
      has handled and of entries that nothing was linked to before. */
  ghost predicate Sound(stmts: map<StmtId, Statement>, entries: map<EntryId, Entry>, order: seq<StmtId>, base: Links,
      links: Links, tolerance: int)
    requires forall s :: s in order ==> s in stmts
  {
    && base <= links
    && OneToOne(links - base)
    && forall l :: l in links - base ==> l.0 in order && l.1 in entries
                                         && Compatible(stmts[l.0], entries[l.1], tolerance) && !Reconciled(base, l.1)
  }

  ghost predicate Exhausted(stmts: map<StmtId, Statement>, entries: map<EntryId, Entry>, order: seq<StmtId>,
                            base: Links, links: Links, tolerance: int)
    requires forall s :: s in order ==> s in stmts
  {
    forall s, e :: s in order && e in entries && !HasLink(links - base, s) && Compatible(stmts[s], entries[e], tolerance)
                   ==> Reconciled(links, e)
  }

  lemma SoundStep(stmts: map<StmtId, Statement>, entries: map<EntryId, Entry>, front: seq<StmtId>, base: Links,
      before: Links,
                  l: (StmtId, EntryId), tolerance: int)
    requires forall s :: s in front ==> s in stmts
    requires Sound(stmts, entries, front, base, before, tolerance)
    requires l.0 in stmts && l.0 !in front && l.1 in entries
    requires Compatible(stmts[l.0], entries[l.1], tolerance) && !Reconciled(before, l.1)
    ensures Sound(stmts, entries, front + [l.0], base, before + {l}, tolerance)
  {
    LinkedBeforeOrAdded(base, before);
    assert l in base ==> Reconciled(base, l.1);
    assert before + {l} - base == (before - base) + {l};
    assert forall a :: a in before - base ==> a.0 in front && Reconciled(before - base, a.1);
  }

  lemma ExhaustedStep(stmts: map<StmtId, Statement>, entries: map<EntryId, Entry>, front: seq<StmtId>,
                      base: Links, before: Links, l: (StmtId, EntryId), tolerance: int)
    requires forall s :: s in front ==> s in stmts
    requires Exhausted(stmts, entries, front, base, before, tolerance)
    requires l.0 in stmts && base <= before && l !in base
    ensures Exhausted(stmts, entries, front + [l.0], base, before + {l}, tolerance)
  {
    assert before + {l} - base == (before - base) + {l};
    Linked(before - base, l);
    Linked(before, l);
  }

  lemma {:induction false} GreedyIsSoundAndMaximal(stmts: map<StmtId, Statement>, entries: map<EntryId, Entry>,
      order: seq<StmtId>,
      listings: seq<seq<EntryId>>, base: Links, tolerance: int)
    requires forall s :: s in order ==> s in stmts
    requires AllList(listings, order, entries)
    requires Distinct(order)
    ensures var links := Greedy(stmts, entries, order, listings, base, tolerance);
            && Sound(stmts, entries, order, base, links, tolerance)
            && Exhausted(stmts, entries, order, base, links, tolerance)
  {
    if order != [] {
      var n := |order| - 1;
      GreedyIsSoundAndMaximal(stmts, entries, order[..n], listings[..n], base, tolerance);
      var before := Greedy(stmts, entries, order[..n], listings[..n], base, tolerance);
      TurnIsSoundAndMaximal(stmts, entries, order[..n], order[n], listings[n], base, before, tolerance);
      assert order == order[..n] + [order[n]];
    }
  }

  /** One turn of the pass. */
  lemma {:induction false} TurnIsSoundAndMaximal(stmts: map<StmtId, Statement>, entries: map<EntryId, Entry>,
      front: seq<StmtId>, id: StmtId, listing: seq<EntryId>, base: Links, before: Links, tolerance: int)
    requires id in stmts && id !in front && forall s :: s in front ==> s in stmts
    requires Lists(listing, entries)
    requires Sound(stmts, entries, front, base, before, tolerance)
    requires Exhausted(stmts, entries, front, base, before, tolerance)
    ensures var links := MatchOne(stmts[id], id, entries, listing, before, tolerance);
            && Sound(stmts, entries, front + [id], base, links, tolerance)
            && Exhausted(stmts, entries, front + [id], base, links, tolerance)
  {
    var c := Candidates(stmts[id], entries, listing, before, tolerance);
    if c != [] {
      var l := (id, c[BestIndex(stmts[id], entries, c)]);
      assert l.1 in c;
      LinkedBeforeOrAdded(base, before);
      assert l in base ==> Reconciled(base, l.1);
      SoundStep(stmts, entries, front, base, before, l, tolerance);
      ExhaustedStep(stmts, entries, front, base, before, l, tolerance);
    } else {
      NothingCompatible(stmts[id], entries, listing, before, tolerance);
    }
  }

  /** Without candidates every compatible entry is reconciled. */
  lemma {:induction false} NothingCompatible(s: Statement, entries: map<EntryId, Entry>, listing: seq<EntryId>,
      links: Links, tolerance: int)
    requires Lists(listing, entries) && Candidates(s, entries, listing, links, tolerance) == []
    ensures forall e :: e in entries && Compatible(s, entries[e], tolerance) ==> Reconciled(links, e)
  {
    forall e | e in entries && Compatible(s, entries[e], tolerance) ensures Reconciled(links, e) {
      assert e in listing && e !in Candidates(s, entries, listing, links, tolerance);
    }
  }

  lemma {:induction false} NoCandidates(s: Statement, entries: map<EntryId, Entry>, listing: seq<EntryId>,
      links: Links, tolerance: int)
    requires forall e :: e in listing ==> e in entries
    requires forall e :: e in listing && Compatible(s, entries[e], tolerance) ==> Reconciled(links, e)
    ensures Candidates(s, entries, listing, links, tolerance) == []
  {
    if listing != [] {
      NoCandidates(s, entries, listing[1..], links, tolerance);
    }
  }

  /** Nothing is left for an immediate second pass over the lines that stayed unmatched, in
      whatever order the database now returns lines and entries. */
  lemma {:induction false} SecondPassMatchesNothing(stmts: map<StmtId, Statement>, entries: map<EntryId, Entry>,
      order: seq<StmtId>,
      listings: seq<seq<EntryId>>, base: Links, tolerance: int, again: seq<StmtId>, listings': seq<seq<EntryId>>)
    requires forall s :: s in order ==> s in stmts
    requires AllList(listings, order, entries) && AllList(listings', again, entries)
    requires Distinct(order)
    requires var added := Greedy(stmts, entries, order, listings, base, tolerance) - base;
             forall s :: s in again ==> s in order && !HasLink(added, s)
    ensures var links := Greedy(stmts, entries, order, listings, base, tolerance);
            Greedy(stmts, entries, again, listings', links, tolerance) == links
  {
    var links := Greedy(stmts, entries, order, listings, base, tolerance);
    if again != [] {
      var n := |again| - 1;
      SecondPassMatchesNothing(stmts, entries, order, listings, base, tolerance, again[..n], listings'[..n]);
      GreedyIsSoundAndMaximal(stmts, entries, order, listings, base, tolerance);
      var s := again[n];
      assert s in again;
      NoCandidates(stmts[s], entries, listings'[n], links, tolerance);
    }
  }

  // ----- half of any assignment -----

  function Touching(a: Links, m: (StmtId, EntryId)): Links {
    set x | x in a && (x.0 == m.0 || x.1 == m.1)
  }

  lemma OneToOneFewTouch(a: Links, m: (StmtId, EntryId))
    requires OneToOne(a)
    ensures |a| <= |a - Touching(a, m)| + 2
  {
    var left, right := set x | x in a && x.0 == m.0, set x | x in a && x.1 == m.1;
    assert a == (a - Touching(a, m)) + (left + right);
    AtMostOne(left);
    AtMostOne(right);
  }

  lemma AtMostOne(s: Links)
    requires forall x, y :: x in s && y in s ==> x == y
    ensures |s| <= 1
  {
    if s != {} {
      var x :| x in s;
      assert s == {x};
    }
  }

  lemma CoverStep(a: Links, m: Links, l: (StmtId, EntryId), x: (StmtId, EntryId))
    requires x.0 != l.0 && x.1 != l.1 && (HasLink(m, x.0) || Reconciled(m, x.1))
    ensures HasLink(m - {l}, x.0) || Reconciled(m - {l}, x.1)
  {
    if HasLink(m, x.0) {
      var y :| y in m && y.0 == x.0;
      assert y in m - {l};
    } else {
      var y :| y in m && y.1 == x.1;
      assert y in m - {l};
    }
  }

  lemma {:induction false} CoverBound(a: Links, m: Links)
    requires OneToOne(a)
    requires forall x :: x in a ==> HasLink(m, x.0) || Reconciled(m, x.1)
    ensures |a| <= 2 * |m|
    decreases |m|
  {
    if m == {} {
      assert forall x :: x !in a;
    } else {
      var l :| l in m;
      var rest := a - Touching(a, l);
      OneToOneFewTouch(a, l);
      forall x | x in rest ensures HasLink(m - {l}, x.0) || Reconciled(m - {l}, x.1) {
        CoverStep(a, m, l, x);
      }
      CoverBound(rest, m - {l});
    }
  }

  /** The pass matches at least half as many lines as any one-to-one assignment of compatible
      lines and still open entries could. */
  lemma {:induction false} GreedyIsHalfOptimal(stmts: map<StmtId, Statement>, entries: map<EntryId, Entry>,
      order: seq<StmtId>,
      listings: seq<seq<EntryId>>, base: Links, tolerance: int, any: Links)
    requires forall s :: s in order ==> s in stmts
    requires AllList(listings, order, entries)
    requires Distinct(order)
    requires OneToOne(any)
    requires forall l :: l in any ==> l.0 in order && l.1 in entries && !Reconciled(base, l.1)
    requires forall l :: l in any ==> Compatible(stmts[l.0], entries[l.1], tolerance)
    ensures |any| <= 2 * |Greedy(stmts, entries, order, listings, base, tolerance) - base|
  {
    GreedyIsSoundAndMaximal(stmts, entries, order, listings, base, tolerance);
    var links := Greedy(stmts, entries, order, listings, base, tolerance);
    LinkedBeforeOrAdded(base, links);
    CoverBound(any, links - base);
  }

  // ----- the service -----

  function WithStatus(rows: map<StmtId, Statement>, s: StmtId, status: Status): map<StmtId, Statement>
    requires s in rows
  {
    rows[s := rows[s].(status := status)]
  }

  function Marked(rows: map<StmtId, Statement>, added: Links): map<StmtId, Statement> {
    map s | s in rows :: if HasLink(added, s) then rows[s].(status := Matched) else rows[s]
  }

  lemma MarkedStep(rows: map<StmtId, Statement>, base: Links, links: Links, l: (StmtId, EntryId))
    requires l.0 in rows && base <= links && l !in links
    ensures Marked(rows, links + {l} - base) == Marked(rows, links - base)[l.0 := rows[l.0].(status := Matched)]
    ensures forall s :: HasLink(links + {l} - base, s) <==> HasLink(links - base, s) || s == l.0
  {
    assert links + {l} - base == (links - base) + {l};
    Linked(links - base, l);
  }

  class ReconciliationService {
    var stmts: map<StmtId, Statement>
    var entries: map<EntryId, Entry>
    var links: Links

    /** A matched line has a link, an unmatched line has none, and links name existing rows. */
    ghost predicate Valid()
      reads this
    {
      && (forall l :: l in links ==> l.0 in stmts && l.1 in entries)
      && (forall s :: s in stmts && stmts[s].status == Matched ==> HasLink(links, s))
      && (forall s :: s in stmts && stmts[s].status == Unmatched ==> !HasLink(links, s))
    }

    /** `order` is what the query for unmatched lines, sorted by date, returns. */
    ghost predicate FetchedUnmatched(order: seq<StmtId>)
      reads this
    {
      && Distinct(order)
      && (forall s :: s in order <==> s in stmts && stmts[s].status == Unmatched)
      && (forall i, j :: 0 <= i < j < |order| ==> stmts[order[i]].date <= stmts[order[j]].date)
    }

    constructor (stmts: map<StmtId, Statement>, entries: map<EntryId, Entry>)
      requires forall s :: s in stmts ==> stmts[s].status == Unmatched
      ensures Valid() && this.stmts == stmts && this.entries == entries && links == {}
    {
      this.stmts, this.entries, this.links := stmts, entries, {};
    }

    /** One turn of the outer loop: link the best open candidate, if there is one. */
    method MatchLine(id: StmtId, listing: seq<EntryId>, tolerance: int) returns (hit: bool)
      requires Valid() && id in stmts && stmts[id].status == Unmatched
      requires forall e :: e in listing ==> e in entries
      modifies this`stmts, this`links
      ensures Valid()
      ensures links == MatchOne(old(stmts)[id], id, entries, listing, old(links), tolerance)
      ensures hit <==> links != old(links)
      ensures hit ==> |links| == |old(links)| + 1
      ensures hit ==> exists l :: links == old(links) + {l} && l.0 == id && l !in old(links)
      ensures stmts == if hit then old(stmts)[id := old(stmts)[id].(status := Matched)] else old(stmts)
    {
      hit := false;
      var c := Candidates(stmts[id], entries, listing, links, tolerance);
      var found, best, score := PickBest(stmts[id], entries, c);
      if found && score >= 60 {
        assert best in c;
        assert (id, best) in links ==> Reconciled(links, best);
        Linked(links, (id, best));
        links := links + {(id, best)};
        stmts := stmts[id := stmts[id].(status := Matched)];
        hit := true;
      }
    }

    /** `matched` counts the links the pass adds, and exactly their lines turn to matched. */
    method AutoMatch(order: seq<StmtId>, listings: seq<seq<EntryId>>, tolerance: int)
        returns (matched: nat, unmatchedRemaining: int)
      requires Valid() && FetchedUnmatched(order) && AllList(listings, order, entries)
      modifies this`stmts, this`links
      ensures Valid()
      ensures links == Greedy(old(stmts), entries, order, listings, old(links), tolerance)
      ensures stmts == Marked(old(stmts), links - old(links))
      ensures matched == |links| - |old(links)| && unmatchedRemaining == |order| - matched
    {
      matched := 0;
      ghost var rows, base := stmts, links;
      assert links - base == {} && Marked(rows, {}) == rows;
      for i := 0 to |order|
        invariant Valid()
        invariant links == Greedy(rows, entries, order[..i], listings[..i], base, tolerance)
        invariant base <= links && matched == |links| - |base|
        invariant stmts == Marked(rows, links - base)
        invariant forall j :: i <= j < |order| ==> order[j] in rows && !HasLink(links - base, order[j])
      {
        var id := order[i];
        ghost var was := links;
        assert id in order && rows[id].status == Unmatched;
        assert order[..i + 1][..i] == order[..i] && listings[..i + 1][..i] == listings[..i];
        var hit := MatchLine(id, listings[i], tolerance);
        if hit {
          ghost var l :| links == was + {l} && l.0 == id && l !in was;
          MarkedStep(rows, base, was, l);
          matched := matched + 1;
        }
      }
      assert order[..|order|] == order && listings[..|order|] == listings;
      unmatchedRemaining := |order| - matched;
    }

    /** Refuses an unknown line, a matched line or an unknown entry; an excluded line is accepted. */
    method ManualMatch(s: StmtId, e: EntryId) returns (ok: bool)
      requires Valid()
      modifies this`stmts, this`links
      ensures Valid()
      ensures ok <==> s in old(stmts) && old(stmts)[s].status != Matched && e in entries
      ensures links == if ok then old(links) + {(s, e)} else old(links)
      ensures stmts == if ok then old(stmts)[s := old(stmts)[s].(status := Matched)] else old(stmts)
    {
      if s !in stmts || stmts[s].status == Matched || e !in entries {
        return false;
      }
      Linked(links, (s, e));
      links := links + {(s, e)};
      stmts := stmts[s := stmts[s].(status := Matched)];
      ok := true;
    }

    /** Only the last link of a line turns it back to unmatched. */
    method Unmatch(s: StmtId, e: EntryId)
      requires Valid()
      modifies this`stmts, this`links
      ensures Valid()
      ensures links == old(links) - {(s, e)}
      ensures stmts == if s in old(stmts) && !HasLink(links, s) then WithStatus(old(stmts), s, Unmatched) else old(stmts)
    {
      ghost var base := links;
      links := links - {(s, e)};
      if !HasLink(links, s) && s in stmts {
        stmts := stmts[s := stmts[s].(status := Unmatched)];
      }
      forall x | x != s ensures HasLink(links, x) <==> HasLink(base, x) {
        if HasLink(base, x) { var l :| l in base && l.0 == x; assert l in links; }
      }
    }

    /** Leaves existing links in place. */
    method Exclude(s: StmtId)
      requires Valid()
      modifies this`stmts
      ensures Valid()
      ensures stmts == if s in old(stmts) then old(stmts)[s := old(stmts)[s].(status := Excluded)] else old(stmts)
    {
      if s in stmts {
        stmts := stmts[s := stmts[s].(status := Excluded)];
      }
    }
  }
}
