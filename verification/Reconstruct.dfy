/**
 Rebuilding a balance from an unordered bag of ledger entries
 (LedgerRepository.Reconstruct, internal/infrastructure/postgres/repositories.go).
 */
module Reconstruction {
  import opened Prelude
  import opened Tables

  datatype Failure = Inconsistent

  // ---------------------------------------------------------------------
  // Specification
  // ---------------------------------------------------------------------

  predicate LocallyValid(e: Entry, currency: string) {
    && e.value > 0 && e.before >= 0 && e.after >= 0 && e.currency == currency
    && (e.direction.Credit? ==> e.after - e.before == e.value)
    && (e.direction.Debit? ==> e.before - e.after == e.value)
  }

  /** The balance a chain ends with. */
  function End(es: seq<Entry>): int {
    if es == [] then 0 else es[|es| - 1].after
  }

  /** Each entry starts where the previous one ended, the first one at zero. */
  ghost predicate Chain(es: seq<Entry>) {
    forall i :: 0 <= i < |es| ==> es[i].before == End(es[..i])
  }

  ghost predicate DistinctBefores(es: seq<Entry>) {
    forall i, j :: 0 <= i < j < |es| ==> es[i].before != es[j].before
  }

  /** `p` lists the rows as one continuous chain whose links have distinct starting balances. */
  ghost predicate Ordering(p: seq<Entry>, rows: seq<Entry>) {
    multiset(p) == multiset(rows) && Chain(p) && DistinctBefores(p)
  }

  ghost predicate Reconstructible(rows: seq<Entry>, currency: string) {
    AllValid(rows, currency) && exists p :: Ordering(p, rows)
  }

  ghost predicate AllValid(rows: seq<Entry>, currency: string) {
    forall i :: 0 <= i < |rows| ==> LocallyValid(rows[i], currency)
  }

  function Signed(e: Entry): int {
    if e.direction.Credit? then e.value else -e.value
  }

  /** Credits minus debits. */
  function Net(es: seq<Entry>): int {
    if es == [] then 0 else Net(es[..|es| - 1]) + Signed(es[|es| - 1])
  }

  function Without(es: seq<Entry>, i: nat): seq<Entry>
    requires i < |es|
  {
    es[..i] + es[i + 1..]
  }

  // ---------------------------------------------------------------------
  // Lemmas about removal and permutation
  // ---------------------------------------------------------------------

  lemma {:induction false} NetWithout(es: seq<Entry>, i: nat)
    requires i < |es|
    ensures Net(es) == Net(Without(es, i)) + Signed(es[i])
  {
    var n := |es| - 1;
    if i == n {
      assert Without(es, i) == es[..n];
    } else {
      NetWithout(es[..n], i);
      assert Without(es, i)[..n - 1] == Without(es[..n], i);
      assert Without(es, i)[n - 1] == es[n];
    }
  }

  lemma MultisetWithout(es: seq<Entry>, i: nat)
    requires i < |es|
    ensures multiset(es) == multiset(Without(es, i)) + multiset{es[i]}
  {
    assert es == es[..i] + [es[i]] + es[i + 1..];
  }

  lemma TwoOccurrences(es: seq<Entry>, i: nat, j: nat)
    requires i < j < |es|
    ensures multiset{es[i], es[j]} <= multiset(es)
  {
    MultisetWithout(es, j);
    assert Without(es, j)[i] == es[i];
    MultisetWithout(Without(es, j), i);
  }

  /** A pair of entries contained in a list sits at two different positions of it. */
  lemma PairInside(a: Entry, b: Entry, es: seq<Entry>)
    requires multiset{a, b} <= multiset(es) && a.before == b.before
    ensures !DistinctBefores(es)
  {
    assert a in multiset(es);
    var i :| 0 <= i < |es| && es[i] == a;
    MultisetWithout(es, i);
    assert b in multiset(Without(es, i));
    var j :| 0 <= j < |Without(es, i)| && Without(es, i)[j] == b;
    var j' := if j < i then j else j + 1;
    assert es[j'] == b && j' != i;
  }

  lemma DistinctBeforesPermutes(p: seq<Entry>, q: seq<Entry>)
    requires multiset(p) == multiset(q) && DistinctBefores(p)
    ensures DistinctBefores(q)
  {
    forall i, j | 0 <= i < j < |q|
      ensures q[i].before != q[j].before
    {
      TwoOccurrences(q, i, j);
      if q[i].before == q[j].before {
        PairInside(q[i], q[j], p);
      }
    }
  }

  /** What an ordering has left after `done` is what remains of the rows. */
  lemma RemainingLinks(p: seq<Entry>, rows: seq<Entry>, done: seq<Entry>, rest: seq<Entry>)
    requires Ordering(p, rows) && done <= p
    requires multiset(done) + multiset(rest) == multiset(rows)
    ensures multiset(p[|done|..]) == multiset(rest) && |p| == |done| + |rest|
    ensures |done| < |p| ==> p[|done|].before == End(done)
  {
    var k := |done|;
    assert p == done + p[k..];
    var left, right := multiset(p[k..]), multiset(rest);
    forall e
      ensures left[e] == right[e]
    {
      assert (multiset(done) + left)[e] == (multiset(done) + right)[e];
    }
    assert left == right;
    assert |left| == |p[k..]| && |right| == |rest|;
    assert p[..k] == done;
  }

  /**
   Once `done` is a prefix of an ordering `p`, the next link of `p` is a
   remaining entry that starts at the running balance, and it is the only one.
   */
  lemma NextLink(p: seq<Entry>, rows: seq<Entry>, done: seq<Entry>, rest: seq<Entry>, i: nat)
    requires Ordering(p, rows) && done <= p
    requires multiset(done) + multiset(rest) == multiset(rows)
    requires i < |rest| && rest[i].before == End(done)
    ensures |done| < |p| && p[|done|] == rest[i]
    ensures forall j :: 0 <= j < |rest| && rest[j].before == End(done) ==> j == i
  {
    var k := |done|;
    RemainingLinks(p, rows, done, rest);
    assert rest[i] in multiset(p[k..]);
    var m :| 0 <= m < |p[k..]| && p[k..][m] == rest[i];
    assert p[k + m].before == p[k].before;
    assert m == 0;
    forall j | 0 <= j < |rest| && rest[j].before == End(done)
      ensures j == i
    {
      if j != i {
        TwoOccurrences(rest, if i < j then i else j, if i < j then j else i);
        PairInside(rest[i], rest[j], p[k..]);
        assert false;
      }
    }
  }

  /** If anything is left, an ordering has a next link, so some entry starts at the balance. */
  lemma SomeLink(p: seq<Entry>, rows: seq<Entry>, done: seq<Entry>, rest: seq<Entry>)
    requires Ordering(p, rows) && done <= p && rest != []
    requires multiset(done) + multiset(rest) == multiset(rows)
    ensures exists i :: 0 <= i < |rest| && rest[i].before == End(done)
  {
    RemainingLinks(p, rows, done, rest);
    assert p[|done|..][0] in multiset(rest);
  }

  /** What the main loop maintains: `done` is the forced beginning of every ordering. */
  ghost predicate Linked(done: seq<Entry>, rest: seq<Entry>, rows: seq<Entry>) {
    && multiset(done) + multiset(rest) == multiset(rows)
    && Chain(done) && DistinctBefores(done)
    && (forall i, j :: 0 <= i < |done| && 0 <= j < |rest| ==> done[i].before != rest[j].before)
    && End(done) + Net(rest) == Net(rows)
    && (forall p :: Ordering(p, rows) ==> done <= p)
  }

  lemma ChainGrows(done: seq<Entry>, e: Entry)
    requires Chain(done) && e.before == End(done)
    ensures Chain(done + [e])
  {
    var longer := done + [e];
    forall k | 0 <= k < |longer|
      ensures longer[k].before == End(longer[..k])
    {
      assert longer[..k] == done[..k];
      assert k == |done| ==> done[..k] == done;
    }
  }

  /** Every ordering that begins with `done` goes on with its only link. */
  lemma ForcedGrows(done: seq<Entry>, rest: seq<Entry>, rows: seq<Entry>, i: nat)
    requires multiset(done) + multiset(rest) == multiset(rows) && (forall p :: Ordering(p, rows) ==> done <= p)
    requires i < |rest| && rest[i].before == End(done)
    ensures forall p :: Ordering(p, rows) ==> done + [rest[i]] <= p
  {
    forall p | Ordering(p, rows)
      ensures done + [rest[i]] <= p
    {
      NextLink(p, rows, done, rest, i);
    }
  }

  lemma BeforesGrow(done: seq<Entry>, rest: seq<Entry>, i: nat)
    requires DistinctBefores(done) && i < |rest|
    requires forall k, j :: 0 <= k < |done| && 0 <= j < |rest| ==> done[k].before != rest[j].before
    requires forall j :: 0 <= j < |rest| && rest[j].before == rest[i].before ==> j == i
    ensures DistinctBefores(done + [rest[i]])
    ensures forall k, j :: 0 <= k < |done + [rest[i]]| && 0 <= j < |Without(rest, i)| ==> (done + [rest[i]])[k].before != Without(rest, i)[j].before
  {
    forall k, j | 0 <= k < |done + [rest[i]]| && 0 <= j < |Without(rest, i)|
      ensures (done + [rest[i]])[k].before != Without(rest, i)[j].before
    {
      var j' := if j < i then j else j + 1;
      assert Without(rest, i)[j] == rest[j'];
    }
  }

  lemma LinkStep(done: seq<Entry>, rest: seq<Entry>, rows: seq<Entry>, i: nat)
    requires Linked(done, rest, rows) && i < |rest| && rest[i].before == End(done)
    requires forall j :: 0 <= j < |rest| && rest[j].before == End(done) ==> j == i
    requires Signed(rest[i]) == rest[i].after - rest[i].before
    ensures Linked(done + [rest[i]], Without(rest, i), rows)
  {
    MultisetWithout(rest, i);
    NetWithout(rest, i);
    ChainGrows(done, rest[i]);
    ForcedGrows(done, rest, rows, i);
    BeforesGrow(done, rest, i);
    assert multiset(done + [rest[i]]) == multiset(done) + multiset{rest[i]};
  }

  lemma LinkedStart(rows: seq<Entry>)
    ensures Linked([], rows, rows)
  {
    assert multiset([]) + multiset(rows) == multiset(rows);
  }

  lemma ValidWithout(rows: seq<Entry>, i: nat, currency: string)
    requires AllValid(rows, currency) && i < |rows|
    ensures AllValid(Without(rows, i), currency)
  {
  }

  lemma NoLink(done: seq<Entry>, rest: seq<Entry>, rows: seq<Entry>)
    requires Linked(done, rest, rows) && rest != []
    requires || (forall j :: 0 <= j < |rest| ==> rest[j].before != End(done))
             || (exists i, j :: 0 <= i < j < |rest| && rest[i].before == End(done) == rest[j].before)
    ensures !exists p :: Ordering(p, rows)
  {
    if p :| Ordering(p, rows) {
      SomeLink(p, rows, done, rest);
      var i :| 0 <= i < |rest| && rest[i].before == End(done);
      NextLink(p, rows, done, rest, i);
    }
  }

  lemma OnlyOrdering(done: seq<Entry>, rows: seq<Entry>)
    requires Linked(done, [], rows)
    ensures Ordering(done, rows) && forall p :: Ordering(p, rows) ==> p == done
  {
    assert multiset(done) + multiset([]) == multiset(done);
    forall p | Ordering(p, rows)
      ensures p == done
    {
      RemainingLinks(p, rows, done, []);
    }
  }

  // ---------------------------------------------------------------------
  // The algorithm
  // ---------------------------------------------------------------------

  /** The inner scan: the only entry that starts at `balance`, or -1 if none or several do. */
  method FindLink(entries: seq<Entry>, balance: int) returns (candidate: int)
    ensures -1 <= candidate < |entries|
    ensures candidate >= 0 ==> entries[candidate].before == balance
    ensures candidate >= 0 ==> forall j :: 0 <= j < |entries| && entries[j].before == balance ==> j == candidate
    ensures candidate == -1 ==>
              || (forall j :: 0 <= j < |entries| ==> entries[j].before != balance)
              || (exists i, j :: 0 <= i < j < |entries| && entries[i].before == balance == entries[j].before)
  {
    candidate := -1;
    for i := 0 to |entries|
      invariant -1 <= candidate < i
      invariant candidate >= 0 ==> entries[candidate].before == balance
      invariant forall j :: 0 <= j < i && entries[j].before == balance ==> j == candidate
    {
      if entries[i].before == balance {
        if candidate >= 0 {
          assert entries[candidate].before == balance == entries[i].before;
          return -1;
        }
        candidate := i;
      }
    }
  }

  /** The row scan: keeps every row, or stops at the first that is not locally valid. */
  method ScanRows(rows: seq<Entry>, currency: string) returns (r: Outcome<seq<Entry>, Failure>)
    ensures r.Ok? <==> AllValid(rows, currency)
    ensures r.Ok? ==> r.value == rows
  {
    var entries: seq<Entry> := [];
    for i := 0 to |rows|
      invariant entries == rows[..i]
      invariant forall k :: 0 <= k < i ==> LocallyValid(rows[k], currency)
    {
      var current := rows[i];
      if current.value <= 0 || current.before < 0 || current.after < 0 || current.currency != currency {
        return Err(Inconsistent);
      }
      match current.direction {
        case Credit =>
          if current.after < current.before || current.after - current.before != current.value {
            return Err(Inconsistent);
          }
        case Debit =>
          if current.before < current.after || current.before - current.after != current.value {
            return Err(Inconsistent);
          }
      }
      entries := entries + [current];
    }
    return Ok(entries);
  }

  /**
   Reconstruct answers exactly when the rows are locally valid and can be
   ordered into a chain from zero with pairwise distinct starting balances, and
   then it answers credits minus debits, which is where that chain ends; the
   order in which the rows arrive does not matter.
   */
  method Reconstruct(rows: seq<Entry>, currency: string) returns (r: Outcome<int, Failure>)
    ensures r.Ok? <==> Reconstructible(rows, currency)
    ensures r.Ok? ==> r.value == Net(rows)
    ensures r.Ok? ==> forall p :: Ordering(p, rows) ==> End(p) == r.value
  {
    var scanned := ScanRows(rows, currency);
    if scanned.Err? {
      return Err(Inconsistent);
    }
    var entries := scanned.value;
    var balance := 0;
    ghost var done: seq<Entry> := [];
    LinkedStart(rows);
    while |entries| > 0
      invariant Linked(done, entries, rows) && balance == End(done)
      invariant AllValid(entries, currency)
      decreases |entries|
    {
      var candidate := FindLink(entries, balance);
      if candidate < 0 {
        NoLink(done, entries, rows);
        return Err(Inconsistent);
      }
      LinkStep(done, entries, rows, candidate);
      ValidWithout(entries, candidate, currency);
      balance := entries[candidate].after;
      done := done + [entries[candidate]];
      entries := Without(entries, candidate);
    }
    OnlyOrdering(done, rows);
    assert Net(entries) == 0;
    return Ok(balance);
  }

  /**
   For rows that come from a continuous chain, as every wallet's do, the only
   reason to refuse is a starting balance that occurs twice.
   */
  lemma ChainReconstructs(es: seq<Entry>, rows: seq<Entry>, currency: string)
    requires Chain(es) && multiset(rows) == multiset(es)
    requires AllValid(es, currency)
    ensures Reconstructible(rows, currency) <==> DistinctBefores(es)
    ensures DistinctBefores(es) ==> Ordering(es, rows)
  {
    forall i | 0 <= i < |rows|
      ensures LocallyValid(rows[i], currency)
    {
      assert rows[i] in multiset(es);
    }
    if Reconstructible(rows, currency) {
      var p :| Ordering(p, rows);
      DistinctBeforesPermutes(p, es);
    }
    if DistinctBefores(es) {
      assert Ordering(es, rows);
    }
  }

  /** Open 100, bet 80, refund 80, bet 80: a correct ledger the algorithm refuses. */
  lemma RepeatedBalanceRefused(es: seq<Entry>)
    requires es == [Entry(1, 1, Credit, 10000, "EUR", 0, 10000), Entry(1, 2, Debit, 8000, "EUR", 10000, 2000),
                    Entry(1, 3, Credit, 8000, "EUR", 2000, 10000), Entry(1, 4, Debit, 8000, "EUR", 10000, 2000)]
    ensures Chain(es) && !Reconstructible(es, "EUR")
  {
    assert es[1].before == es[3].before;
    ChainReconstructs(es, es, "EUR");
  }
}
