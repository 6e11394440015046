/** The canonical query printer of the request-signing middleware.

    A query string is the sequence of its UTF-8 bytes: the separators are ASCII, so splitting the
    text and splitting its bytes agree. Escapes follow sections 2.1 and 2.3 of RFC 3986. */
module CanonicalQuery {

  type Byte = b: int | 0 <= b < 256
  type Bytes = seq<Byte>
  type Pair = (Bytes, Bytes)

  const AMP: Byte := 38
  const EQUALS: Byte := 61
  const PERCENT: Byte := 37

  // ----- percent-encoding -----

  predicate Unreserved(b: Byte) {
    48 <= b <= 57 || 65 <= b <= 90 || 97 <= b <= 122 || b == 45 || b == 46 || b == 95 || b == 126
  }

  function HexDigit(d: int): Byte
    requires 0 <= d < 16
  {
    if d < 10 then 48 + d else 55 + d
  }

  function QuoteByte(b: Byte): Bytes {
    if Unreserved(b) then [b] else [PERCENT, HexDigit(b / 16), HexDigit(b % 16)]
  }

  function Quote(s: Bytes): Bytes {
    if s == [] then [] else QuoteByte(s[0]) + Quote(s[1..])
  }

  predicate Clean(s: Bytes) {
    forall i :: 0 <= i < |s| ==> s[i] != AMP && s[i] != EQUALS
  }

  lemma {:induction false} QuoteIsClean(s: Bytes)
    ensures Clean(Quote(s))
  {
    if s != [] {
      QuoteIsClean(s[1..]);
    }
  }

  lemma QuoteByteSplits(a: Byte, b: Byte, x: Bytes, y: Bytes)
    requires QuoteByte(a) + x == QuoteByte(b) + y
    ensures a == b && x == y
  {
    var l, r := QuoteByte(a) + x, QuoteByte(b) + y;
    assert l[0] == QuoteByte(a)[0] && r[0] == QuoteByte(b)[0];
    if !Unreserved(a) {
      assert l[1] == HexDigit(a / 16) && l[2] == HexDigit(a % 16);
      assert r[1] == HexDigit(b / 16) && r[2] == HexDigit(b % 16);
    }
    assert a == b;
    assert l[|QuoteByte(a)|..] == x && r[|QuoteByte(b)|..] == y;
  }

  /** Two texts with the same encoding are the same text. */
  lemma {:induction false} QuoteIsInjective(s: Bytes, t: Bytes)
    requires Quote(s) == Quote(t)
    ensures s == t
  {
    if s != [] && t != [] {
      QuoteByteSplits(s[0], t[0], Quote(s[1..]), Quote(t[1..]));
      QuoteIsInjective(s[1..], t[1..]);
      assert s == [s[0]] + s[1..] && t == [t[0]] + t[1..];
    }
  }

  // ----- splitting -----

  /** The text up to the first `sep`, all of it if there is none. */
  function Before(s: Bytes, sep: Byte): (r: Bytes)
    ensures |r| <= |s|
    ensures |r| < |s| ==> s[|r|] == sep
  {
    if s == [] || s[0] == sep then [] else [s[0]] + Before(s[1..], sep)
  }

  function After(s: Bytes, sep: Byte): (r: Bytes)
    ensures |r| <= |s|
    ensures s != [] ==> |r| < |s|
  {
    var n := |Before(s, sep)|;
    if n < |s| then s[n + 1..] else []
  }

  /** A bare key counts as a key with the empty value. */
  function SplitPair(segment: Bytes): Pair {
    (Before(segment, EQUALS), After(segment, EQUALS))
  }

  /** The (key, value) pairs of a query, in order; empty segments are ignored. */
  function Pairs(query: Bytes): seq<Pair>
    decreases |query|
  {
    if query == [] then []
    else
      var segment := Before(query, AMP);
      (if segment == [] then [] else [SplitPair(segment)]) + Pairs(After(query, AMP))
  }

  function QuotePair(p: Pair): Pair { (Quote(p.0), Quote(p.1)) }

  function QuotePairs(ps: seq<Pair>): seq<Pair> {
    if ps == [] then [] else [QuotePair(ps[0])] + QuotePairs(ps[1..])
  }

  // ----- order -----

  predicate Leq(s: Bytes, t: Bytes) {
    if s == [] then true
    else if t == [] then false
    else s[0] < t[0] || (s[0] == t[0] && Leq(s[1..], t[1..]))
  }

  predicate PairLeq(p: Pair, q: Pair) {
    if p.0 == q.0 then Leq(p.1, q.1) else Leq(p.0, q.0)
  }

  lemma {:induction false} LeqTotal(s: Bytes, t: Bytes)
    ensures Leq(s, t) || Leq(t, s)
    ensures Leq(s, t) && Leq(t, s) ==> s == t
  {
    if s != [] && t != [] {
      LeqTotal(s[1..], t[1..]);
      assert s == [s[0]] + s[1..] && t == [t[0]] + t[1..];
    }
  }

  lemma {:induction false} LeqTransitive(s: Bytes, t: Bytes, u: Bytes)
    requires Leq(s, t) && Leq(t, u)
    ensures Leq(s, u)
  {
    if s != [] && t != [] && u != [] {
      if s[0] == t[0] == u[0] { LeqTransitive(s[1..], t[1..], u[1..]); }
    }
  }

  lemma PairOrder(p: Pair, q: Pair, r: Pair)
    ensures PairLeq(p, q) || PairLeq(q, p)
    ensures PairLeq(p, q) && PairLeq(q, p) ==> p == q
    ensures PairLeq(p, q) && PairLeq(q, r) ==> PairLeq(p, r)
  {
    LeqTotal(p.0, q.0);
    LeqTotal(p.1, q.1);
    LeqTotal(q.0, r.0);
    if PairLeq(p, q) && PairLeq(q, r) {
      if p.0 == q.0 == r.0 { LeqTransitive(p.1, q.1, r.1); }
      else if p.0 != q.0 && q.0 != r.0 { LeqTransitive(p.0, q.0, r.0); LeqTotal(p.0, r.0); }
    }
  }

  predicate Sorted(ps: seq<Pair>) {
    forall i, j :: 0 <= i < j < |ps| ==> PairLeq(ps[i], ps[j])
  }

  function Insert(p: Pair, ps: seq<Pair>): seq<Pair> {
    if ps == [] || PairLeq(p, ps[0]) then [p] + ps else [ps[0]] + Insert(p, ps[1..])
  }

  function Sort(ps: seq<Pair>): seq<Pair> {
    if ps == [] then [] else Insert(ps[0], Sort(ps[1..]))
  }

  lemma {:induction false} InsertSorts(p: Pair, ps: seq<Pair>)
    requires Sorted(ps)
    ensures Sorted(Insert(p, ps))
    ensures multiset(Insert(p, ps)) == multiset{p} + multiset(ps)
  {
    if ps != [] {
      assert ps == [ps[0]] + ps[1..];
      if PairLeq(p, ps[0]) {
        forall j | 0 <= j < |ps| ensures PairLeq(p, ps[j]) { PairOrder(p, ps[0], ps[j]); }
      } else {
        InsertSorts(p, ps[1..]);
        var rest := Insert(p, ps[1..]);
        PairOrder(p, ps[0], ps[0]);
        forall j | 0 <= j < |rest| ensures PairLeq(ps[0], rest[j]) {
          assert rest[j] in multiset(rest);
        }
      }
    }
  }

  lemma {:induction false} SortSorts(ps: seq<Pair>)
    ensures Sorted(Sort(ps)) && multiset(Sort(ps)) == multiset(ps)
  {
    if ps != [] {
      SortSorts(ps[1..]);
      InsertSorts(ps[0], Sort(ps[1..]));
      assert ps == [ps[0]] + ps[1..];
    }
  }

  lemma LeastComesFirst(a: seq<Pair>, x: Pair)
    requires Sorted(a) && x in multiset(a)
    ensures PairLeq(a[0], x)
  {
    var i :| 0 <= i < |a| && a[i] == x;
    PairOrder(x, x, x);
  }

  lemma MultisetTail(a: seq<Pair>)
    requires a != []
    ensures multiset(a[1..]) == multiset(a) - multiset{a[0]}
  {
    assert a == [a[0]] + a[1..];
  }

  /** A multiset of pairs has one sorted listing. */
  lemma {:induction false} SortedIsUnique(a: seq<Pair>, b: seq<Pair>)
    requires Sorted(a) && Sorted(b) && multiset(a) == multiset(b)
    ensures a == b
  {
    assert |a| == |multiset(a)| && |b| == |multiset(b)|;
    if a != [] {
      assert a[0] in multiset(a) && b[0] in multiset(b);
      LeastComesFirst(a, b[0]);
      LeastComesFirst(b, a[0]);
      PairOrder(a[0], b[0], b[0]);
      MultisetTail(a);
      MultisetTail(b);
      SortedIsUnique(a[1..], b[1..]);
      assert a == [a[0]] + a[1..] && b == [b[0]] + b[1..];
    }
  }

  // ----- printing -----

  function PrintPair(p: Pair): Bytes { p.0 + [EQUALS] + p.1 }

  function Print(ps: seq<Pair>): Bytes {
    if ps == [] then []
    else if |ps| == 1 then PrintPair(ps[0])
    else PrintPair(ps[0]) + [AMP] + Print(ps[1..])
  }

  function Canonical(query: Bytes): Bytes { Print(Sort(QuotePairs(Pairs(query)))) }

  lemma {:induction false} BeforeSeparator(s: Bytes, sep: Byte, rest: Bytes)
    requires forall i :: 0 <= i < |s| ==> s[i] != sep
    ensures Before(s, sep) == s && After(s, sep) == []
    ensures Before(s + [sep] + rest, sep) == s && After(s + [sep] + rest, sep) == rest
  {
    if s == [] {
      assert s + [sep] + rest == [sep] + rest;
    } else {
      assert (s + [sep] + rest)[1..] == s[1..] + [sep] + rest;
      BeforeSeparator(s[1..], sep, rest);
    }
  }

  ghost predicate AllClean(ps: seq<Pair>) {
    forall i :: 0 <= i < |ps| ==> Clean(ps[i].0) && Clean(ps[i].1)
  }

  /** The printed form can be parsed back, so it loses nothing. */
  lemma {:induction false} PrintParses(ps: seq<Pair>)
    requires AllClean(ps)
    ensures Pairs(Print(ps)) == ps
  {
    if ps != [] {
      var p, rest := ps[0], Print(ps[1..]);
      var text := PrintPair(p);
      assert text[|p.0|] == EQUALS;
      BeforeSeparator(p.0, EQUALS, p.1);
      assert forall i :: 0 <= i < |text| ==> text[i] != AMP;
      BeforeSeparator(text, AMP, rest);
      PrintParses(ps[1..]);
      assert ps == [p] + ps[1..];
    }
  }

  lemma {:induction false} QuotePairsClean(ps: seq<Pair>)
    ensures forall p :: p in QuotePairs(ps) ==> Clean(p.0) && Clean(p.1)
  {
    if ps != [] {
      QuoteIsClean(ps[0].0);
      QuoteIsClean(ps[0].1);
      QuotePairsClean(ps[1..]);
    }
  }

  /** Quoting renames pairs one to one, so it keeps multiplicities. */
  lemma {:induction false} QuoteKeepsCounts(ps: seq<Pair>, p: Pair)
    ensures multiset(QuotePairs(ps))[QuotePair(p)] == multiset(ps)[p]
  {
    if ps != [] {
      QuoteKeepsCounts(ps[1..], p);
      assert ps == [ps[0]] + ps[1..];
      if QuotePair(ps[0]) == QuotePair(p) {
        QuoteIsInjective(ps[0].0, p.0);
        QuoteIsInjective(ps[0].1, p.1);
      }
    }
  }

  lemma {:induction false} QuotedCounts(ps: seq<Pair>, q: Pair)
    requires q in multiset(QuotePairs(ps))
    ensures exists p :: q == QuotePair(p)
  {
    assert QuotePairs(ps) == [QuotePair(ps[0])] + QuotePairs(ps[1..]);
    if q != QuotePair(ps[0]) {
      QuotedCounts(ps[1..], q);
    }
  }

  lemma SameMultisets(ps: seq<Pair>, qs: seq<Pair>)
    ensures multiset(QuotePairs(ps)) == multiset(QuotePairs(qs)) <==> multiset(ps) == multiset(qs)
  {
    if multiset(ps) == multiset(qs) {
      forall q ensures multiset(QuotePairs(ps))[q] == multiset(QuotePairs(qs))[q] {
        if q in multiset(QuotePairs(ps)) || q in multiset(QuotePairs(qs)) {
          QuotedCounts(if q in multiset(QuotePairs(ps)) then ps else qs, q);
          var p :| q == QuotePair(p);
          QuoteKeepsCounts(ps, p);
          QuoteKeepsCounts(qs, p);
        }
      }
    }
    if multiset(QuotePairs(ps)) == multiset(QuotePairs(qs)) {
      forall p ensures multiset(ps)[p] == multiset(qs)[p] {
        QuoteKeepsCounts(ps, p);
        QuoteKeepsCounts(qs, p);
      }
    }
  }

  /** The canonical form, read back, is the sorted listing of the encoded pairs. */
  lemma CanonicalReadsBack(query: Bytes)
    ensures Pairs(Canonical(query)) == Sort(QuotePairs(Pairs(query)))
  {
    var quoted := QuotePairs(Pairs(query));
    SortSorts(quoted);
    QuotePairsClean(Pairs(query));
    forall i | 0 <= i < |Sort(quoted)| ensures Clean(Sort(quoted)[i].0) && Clean(Sort(quoted)[i].1) {
      assert Sort(quoted)[i] in multiset(Sort(quoted));
    }
    PrintParses(Sort(quoted));
  }

  /** Two queries have the same canonical form exactly when they hold the same pairs, each equally
      often, in any order. */
  lemma CanonicalIffSamePairs(q: Bytes, r: Bytes)
    ensures Canonical(q) == Canonical(r) <==> multiset(Pairs(q)) == multiset(Pairs(r))
  {
    CanonicalReadsBack(q);
    CanonicalReadsBack(r);
    SortSorts(QuotePairs(Pairs(q)));
    SortSorts(QuotePairs(Pairs(r)));
    SameMultisets(Pairs(q), Pairs(r));
    if multiset(Pairs(q)) == multiset(Pairs(r)) {
      SortedIsUnique(Sort(QuotePairs(Pairs(q))), Sort(QuotePairs(Pairs(r))));
    }
  }

  /** No decoding precedes the encoding: a query that already spells a byte as an escape and one that
      holds the byte itself keep different canonical forms, here "a+b" and "a%20b" as keys. */
  lemma PlusAndEscapedSpaceDiffer()
    ensures Canonical([97, 43, 98]) != Canonical([97, PERCENT, 50, 48, 98])
  {
    var q, r: Bytes := [97, 43, 98], [97, PERCENT, 50, 48, 98];
    BeforeSeparator(q, AMP, []);
    BeforeSeparator(r, AMP, []);
    BeforeSeparator(q, EQUALS, []);
    BeforeSeparator(r, EQUALS, []);
    assert Pairs(q) == [(q, [])] && Pairs(r) == [(r, [])];
    CanonicalIffSamePairs(q, r);
    assert (q, []) in multiset(Pairs(q)) && (q, []) !in multiset(Pairs(r));
  }

  lemma FirstSegment(query: Bytes)
    requires query != []
    ensures var segment, rest := Before(query, AMP), QuotePairs(Pairs(After(query, AMP)));
            QuotePairs(Pairs(query)) == if segment == [] then rest else [QuotePair(SplitPair(segment))] + rest
  {
    var segment, tail := Before(query, AMP), Pairs(After(query, AMP));
    assert Pairs(query) == if segment == [] then tail else [SplitPair(segment)] + tail;
  }

  /** The middleware's loop: split, encode, collect, sort, join. */
  method CanonicalQuery(query: Bytes) returns (text: Bytes)
    ensures text == Canonical(query)
  {
    if query == [] {
      assert Pairs(query) == [] && QuotePairs(Pairs(query)) == [] && Sort(QuotePairs(Pairs(query))) == [];
      return [];
    }
    var pairs: seq<Pair> := [];
    var rest := query;
    while rest != []
      invariant pairs + QuotePairs(Pairs(rest)) == QuotePairs(Pairs(query))
      decreases |rest|
    {
      var rawPair := Before(rest, AMP);
      var tail := After(rest, AMP);
      FirstSegment(rest);
      if rawPair != [] {
        var kv := SplitPair(rawPair);
        pairs := pairs + [(Quote(kv.0), Quote(kv.1))];
      }
      rest := tail;
    }
    assert pairs == QuotePairs(Pairs(query));
    pairs := Sort(pairs);
    text := Print(pairs);
  }
}
