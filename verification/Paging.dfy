/**
 Keyset paging over the ledger: ListByWallet (internal/infrastructure/postgres/query.go)
 and Ledger (internal/application/query/service.go). A wallet's table is given
 in the order of its index, strictly increasing in (timestamp, id).
 */
module Paging {
  import opened Prelude
  import opened Monetary

  const DEFAULT_LIMIT := 50
  const MAX_LIMIT := 100

  datatype Cursor = Cursor(timestamp: int, id: nat)
  datatype Row = Row(key: Cursor, payload: int)
  datatype Page = Page(entries: seq<Row>, next: Option<Cursor>)

  predicate Before(a: Cursor, b: Cursor) {
    a.timestamp < b.timestamp || (a.timestamp == b.timestamp && a.id < b.id)
  }

  /** The rows past a cursor; without one, every row. */
  predicate Past(after: Option<Cursor>, row: Row) {
    after.Some? ==> Before(after.value, row.key)
  }

  /** In the order of (timestamp, id). */
  ghost predicate Sorted(rows: seq<Row>) {
    forall i, j :: 0 <= i < j < |rows| ==>
      rows[i].key.timestamp <= rows[j].key.timestamp && (rows[i].key.timestamp == rows[j].key.timestamp ==> rows[i].key.id < rows[j].key.id)
  }

  /** The row lies strictly behind the cursor; without one, every row does. */
  ghost predicate Behind(after: Option<Cursor>, row: Row) {
    match after
    case None => true
    case Some(c) => if row.key.timestamp == c.timestamp then c.id < row.key.id else c.timestamp < row.key.timestamp
  }

  /** `entries` are the first rows of the table behind the cursor, in order, as many as there are up to the limit. */
  ghost predicate FirstBehind(table: seq<Row>, after: Option<Cursor>, limit: nat, entries: seq<Row>) {
    && Sorted(entries) && |entries| <= limit
    && (forall r :: r in entries ==> r in table && Behind(after, r))
    && (forall r :: r in table && Behind(after, r) && r !in entries ==> |entries| == limit && (limit > 0 ==> Behind(Some(entries[limit - 1].key), r)))
  }

  /** strconv.Atoi: an optional sign, then decimal digits, within int64. */
  function Atoi(text: string): Option<int> {
    var signed := text != "" && (text[0] == '+' || text[0] == '-');
    var digits := if signed then text[1..] else text;
    if digits == "" || !AllDigits(digits) then None
    else
      var n: int := WholeValue(digits) as int * if text[0] == '-' then -1 else 1;
      if IsInt64(n) then Some(n) else None
  }

  /** parseLimit: no text means the default; otherwise a number from 1 to the maximum. */
  function ParseLimit(raw: string): (limit: Option<nat>)
    ensures limit.Some? ==> 1 <= limit.value <= MAX_LIMIT
    ensures raw == "" ==> limit == Some(DEFAULT_LIMIT)
    ensures raw != "" ==> (limit.Some? <==> Atoi(raw).Some? && 1 <= Atoi(raw).value <= MAX_LIMIT)
    ensures raw != "" && limit.Some? ==> Atoi(raw) == limit
  {
    if raw == "" then Some(DEFAULT_LIMIT)
    else
      match Atoi(raw)
      case None => None
      case Some(n) => if n < 1 || n > MAX_LIMIT then None else Some(n)
  }

  /** `text` is written with an optional sign and decimal digits, and reads as n. */
  ghost predicate Reads(text: string, n: int) {
    exists digits: string :: digits != "" && AllDigits(digits) &&
      ((n == WholeValue(digits) && (text == digits || text == "+" + digits)) || (n == 0 - WholeValue(digits) as int && text == "-" + digits))
  }

  lemma AtoiReads(text: string, n: int)
    ensures Atoi(text) == Some(n) <==> Reads(text, n) && IsInt64(n)
  {
    var signed := text != "" && (text[0] == '+' || text[0] == '-');
    var digits := if signed then text[1..] else text;
    if Atoi(text) == Some(n) {
      assert signed ==> text == [text[0]] + digits;
    }
    if Reads(text, n) {
      var d: string :| d != "" && AllDigits(d) && ((n == WholeValue(d) && (text == d || text == "+" + d)) || (n == 0 - WholeValue(d) as int && text == "-" + d));
      assert IsDigit(d[0]);
      assert text != d ==> text[1..] == d;
    }
  }

  /** Exactly the texts that read as a number from 1 to 100 are limits, leading zeros and a plus sign included, and no text means 50. */
  lemma LimitExactly(raw: string, n: nat)
    ensures ParseLimit(raw) == Some(n) <==> if raw == "" then n == 50 else 1 <= n <= 100 && Reads(raw, n)
  {
    AtoiReads(raw, n);
  }

  /** Every limit in range can be asked for in plain digits, and no printed number out of range is accepted. */
  lemma PrintedLimit(n: nat)
    ensures ParseLimit(Decimal(n)) == if 1 <= n <= MAX_LIMIT then Some(n) else None
  {
    DecimalDenotes(n);
    assert IsDigit(Decimal(n)[0]);
  }

  /** The rows of a sorted table past the cursor: a suffix of it. */
  function Rest(table: seq<Row>, after: Option<Cursor>): seq<Row> {
    if table == [] then [] else if Past(after, table[0]) then table else Rest(table[1..], after)
  }

  /** One page: the first `limit` rows past the cursor, with a cursor if more remain. */
  function PageOf(table: seq<Row>, after: Option<Cursor>, limit: nat): (page: Page)
    requires limit > 0
  {
    var rest := Rest(table, after);
    if |rest| <= limit then Page(rest, None) else Page(rest[..limit], Some(rest[limit - 1].key))
  }

  lemma {:induction false} RestIsSuffix(table: seq<Row>, after: Option<Cursor>)
    requires Sorted(table)
    ensures |Rest(table, after)| <= |table| && Rest(table, after) == table[|table| - |Rest(table, after)|..]
    ensures forall i :: 0 <= i < |Rest(table, after)| ==> Past(after, Rest(table, after)[i])
    ensures forall i :: 0 <= i < |table| - |Rest(table, after)| ==> !Past(after, table[i])
  {
    if table != [] && !Past(after, table[0]) {
      RestIsSuffix(table[1..], after);
      var k := |table| - |Rest(table, after)|;
      assert table[1..][k - 1..] == table[k..];
      forall i | 0 <= i < k
        ensures !Past(after, table[i])
      {
        assert i > 0 ==> table[i] == table[1..][i - 1];
      }
    } else if table != [] && after.Some? {
      forall i | 0 <= i < |table|
        ensures Past(after, table[i])
      {
        assert i > 0 ==> Before(table[0].key, table[i].key);
      }
    }
  }

  /** Cutting sorted rows after the first `limit`: the last row kept separates the two parts. */
  lemma CutAt(rows: seq<Row>, limit: nat)
    requires Sorted(rows) && 0 < limit < |rows|
    ensures Sorted(rows[..limit])
    ensures forall r :: r in rows[..limit] ==> r in rows && !Past(Some(rows[limit - 1].key), r)
    ensures forall r :: r in rows && r !in rows[..limit] ==> Past(Some(rows[limit - 1].key), r)
  {
    forall r | r in rows && r !in rows[..limit]
      ensures Past(Some(rows[limit - 1].key), r)
    {
      var i :| 0 <= i < |rows| && rows[i] == r;
      assert forall k :: 0 <= k < limit ==> rows[..limit][k] == rows[k];
    }
  }

  lemma PastIsBehind(after: Option<Cursor>)
    ensures forall r :: Past(after, r) <==> Behind(after, r)
  {
  }

  /** What the cursor leaves, cut to the limit, is what the columns say. */
  lemma RestIsFirst(table: seq<Row>, after: Option<Cursor>, limit: nat)
    requires Sorted(table)
    ensures var rest := Rest(table, after); FirstBehind(table, after, limit, if |rest| <= limit then rest else rest[..limit])
  {
    hide Sorted, Past, Behind, Rest;
    RestMembers(table, after);
    PastIsBehind(after);
    var rest := Rest(table, after);
    if 0 < limit < |rest| {
      CutAt(rest, limit);
      PastIsBehind(Some(rest[limit - 1].key));
    } else {
      NoneSorted();
    }
  }

  lemma NoneSorted()
    ensures Sorted([])
  {
  }

  /** A row is left over exactly when the rest is longer than the page. */
  lemma MoreRemains(table: seq<Row>, after: Option<Cursor>, limit: nat)
    requires Sorted(table) && limit > 0
    ensures var rest, page := Rest(table, after), PageOf(table, after, limit);
            (exists row :: row in table && Behind(after, row) && row !in page.entries) <==> |rest| > limit
  {
    RestMembers(table, after);
    var rest := Rest(table, after);
    if |rest| > limit {
      assert rest[limit] in rest && rest[limit] !in rest[..limit];
    }
  }

  // ---------------------------------------------------------------------
  // The two methods
  // ---------------------------------------------------------------------

  /** The query: at most `limit` rows past the cursor, in index order. */
  method ListByWallet(table: seq<Row>, after: Option<Cursor>, limit: nat) returns (entries: seq<Row>)
    requires Sorted(table)
    ensures FirstBehind(table, after, limit, entries)
    ensures var rest := Rest(table, after);
            entries == if |rest| <= limit then rest else rest[..limit]
  {
    hide FirstBehind, Sorted, Rest;
    RestIsSuffix(table, after);
    ghost var rest := Rest(table, after);
    ghost var skipped := |table| - |rest|;
    entries := [];
    for i := 0 to |table|
      invariant i <= skipped ==> entries == []
      invariant i > skipped ==> entries == rest[..if i - skipped < limit then i - skipped else limit]
    {
      assert i >= skipped ==> table[i] == rest[i - skipped];
      if Past(after, table[i]) && |entries| < limit {
        entries := entries + [table[i]];
      }
    }
    RestIsFirst(table, after, limit);
    assert entries == if |rest| <= limit then rest else rest[..limit];
  }

  datatype QueryError = InvalidLimit | InvalidCursor | UnknownWallet

  /** What the cursor of a request decodes to. */
  datatype CursorText = NoCursor | Garbled | Decoded(cursor: Cursor)

  function Position(text: CursorText): Option<Cursor> {
    if text.Decoded? then Some(text.cursor) else None
  }

  /** The service: ask for one row more than the page holds and never return it. */
  method Ledger(found: bool, table: seq<Row>, cursor: CursorText, rawLimit: string) returns (r: Outcome<Page, QueryError>)
    requires Sorted(table)
    ensures r == if ParseLimit(rawLimit).None? then Err(InvalidLimit)
                 else if cursor.Garbled? then Err(InvalidCursor)
                 else if !found then Err(UnknownWallet)
                 else Ok(PageOf(table, Position(cursor), ParseLimit(rawLimit).value))
    ensures r.Ok? ==>
              var page, limit := r.value, ParseLimit(rawLimit).value;
              && FirstBehind(table, Position(cursor), limit, page.entries)
              && (page.next.Some? <==> exists row :: row in table && Behind(Position(cursor), row) && row !in page.entries)
              && (page.next.Some? ==> page.next == Some(page.entries[limit - 1].key))
  {
    var parsed := ParseLimit(rawLimit);
    if parsed.None? {
      return Err(InvalidLimit);
    }
    var limit := parsed.value;
    if cursor.Garbled? {
      return Err(InvalidCursor);
    }
    var after := Position(cursor);
    if !found {
      return Err(UnknownWallet);
    }
    var records := ListByWallet(table, after, limit + 1);
    ghost var rest := Rest(table, after);
    var next := None;
    if |records| > limit {
      records := records[..limit];
      next := Some(records[|records| - 1].key);
    }
    var entries := [];
    for i := 0 to |records|
      invariant entries == records[..i]
    {
      entries := entries + [records[i]];
    }
    assert entries == records;
    assert |rest| > limit ==> rest[..limit + 1][..limit] == rest[..limit];
    assert Page(entries, next) == PageOf(table, after, limit);
    RestIsFirst(table, after, limit);
    MoreRemains(table, after, limit);
    return Ok(Page(entries, next));
  }

  // ---------------------------------------------------------------------
  // Whole walks
  // ---------------------------------------------------------------------

  /** One fetch of a walk: the table as it is then, and the limit asked for. */
  datatype Fetch = Fetch(table: seq<Row>, limit: nat)

  /** Rows are only ever inserted, so each table contains the earlier ones. */
  ghost predicate Growing(fetches: seq<Fetch>) {
    && (forall i :: 0 <= i < |fetches| ==> Sorted(fetches[i].table) && fetches[i].limit > 0)
    && (forall i :: 0 < i < |fetches| ==> forall r :: r in fetches[i - 1].table ==> r in fetches[i].table)
  }

  /** Following the cursors from `after`, the last fetch is the first to return none. */
  ghost predicate Walk(fetches: seq<Fetch>, after: Option<Cursor>)
    requires forall i :: 0 <= i < |fetches| ==> fetches[i].limit > 0
  {
    fetches != [] &&
    var page := PageOf(fetches[0].table, after, fetches[0].limit);
    if |fetches| == 1 then page.next.None? else page.next.Some? && Walk(fetches[1..], page.next)
  }

  /** Everything a walk returns, in the order in which it returns it. */
  ghost function Returned(fetches: seq<Fetch>, after: Option<Cursor>): seq<Row>
    requires forall i :: 0 <= i < |fetches| ==> fetches[i].limit > 0
  {
    if fetches == [] then []
    else
      var page := PageOf(fetches[0].table, after, fetches[0].limit);
      page.entries + Returned(fetches[1..], page.next)
  }

  lemma GrowingTail(fetches: seq<Fetch>)
    requires Growing(fetches) && |fetches| > 0
    ensures Growing(fetches[1..])
  {
    forall i | 0 < i < |fetches[1..]|
      ensures forall r :: r in fetches[1..][i - 1].table ==> r in fetches[1..][i].table
    {
      assert fetches[1..][i - 1] == fetches[i + 1 - 1] && fetches[1..][i] == fetches[i + 1];
    }
  }

  /** Membership in the rest of a table, for sorted tables. */
  lemma RestMembers(table: seq<Row>, after: Option<Cursor>)
    requires Sorted(table)
    ensures Sorted(Rest(table, after))
    ensures forall r :: r in Rest(table, after) <==> r in table && Past(after, r)
  {
    RestIsSuffix(table, after);
    var rest := Rest(table, after);
    var k := |table| - |rest|;
    assert forall i :: 0 <= i < |rest| ==> rest[i] == table[k + i];
    forall r | r in table && Past(after, r)
      ensures r in rest
    {
      var i :| 0 <= i < |table| && table[i] == r;
      assert rest[i - k] == r;
    }
  }

  /** What a single page leaves out is past its cursor. */
  ghost predicate Splits(table: seq<Row>, after: Option<Cursor>, page: Page) {
    && Sorted(page.entries)
    && (forall r :: r in page.entries ==> r in table && Past(after, r))
    && (page.next.Some? ==> forall r :: r in page.entries ==> !Past(page.next, r))
    && (page.next.Some? && after.Some? ==> Before(after.value, page.next.value))
    && (forall r :: r in table && Past(after, r) ==> r in page.entries || (page.next.Some? && Past(page.next, r)))
  }

  lemma PageSplits(table: seq<Row>, after: Option<Cursor>, limit: nat)
    requires Sorted(table) && limit > 0
    ensures Splits(table, after, PageOf(table, after, limit))
  {
    hide Sorted, Rest, Past;
    RestMembers(table, after);
    var rest := Rest(table, after);
    if |rest| > limit {
      CutAt(rest, limit);
      LaterCursor(after, rest[limit - 1]);
    }
  }

  /** What lies past a later cursor lies past the earlier one. */
  lemma PastLater(after: Option<Cursor>, next: Cursor, row: Row)
    requires (after.Some? ==> Before(after.value, next)) && Past(Some(next), row)
    ensures Past(after, row)
  {
  }

  lemma LaterCursor(after: Option<Cursor>, row: Row)
    requires Past(after, row)
    ensures after.Some? ==> Before(after.value, row.key)
  {
  }

  /**
   However the ledger grows between fetches, a complete walk returns every row
   that was there past its starting point, in order and without repeats, and
   nothing that is not a row of the ledger.
   */
  lemma {:induction false} WalkReturnsAll(fetches: seq<Fetch>, after: Option<Cursor>)
    requires Growing(fetches) && Walk(fetches, after)
    ensures Sorted(Returned(fetches, after))
    ensures forall r :: r in fetches[0].table && Past(after, r) ==> r in Returned(fetches, after)
    ensures forall r :: r in Returned(fetches, after) ==> Past(after, r) && r in fetches[|fetches| - 1].table
    decreases |fetches|
  {
    hide Sorted, Past, PageOf;
    var page := PageOf(fetches[0].table, after, fetches[0].limit);
    PageSplits(fetches[0].table, after, fetches[0].limit);
    if |fetches| == 1 {
      assert Returned(fetches[1..], page.next) == [];
      assert Returned(fetches, after) == page.entries;
    } else {
      GrowingTail(fetches);
      var tail := Returned(fetches[1..], page.next);
      WalkReturnsAll(fetches[1..], page.next);
      assert fetches[1..][0] == fetches[1];
      forall r | r in fetches[0].table && Past(after, r)
        ensures r in page.entries + tail
      {
        assert r in fetches[1 - 1].table;
      }
      forall r | r in page.entries + tail
        ensures Past(after, r) && r in fetches[|fetches| - 1].table
      {
        if r in page.entries {
          TablesGrow(fetches, 0, |fetches| - 1, r);
        } else {
          PastLater(after, page.next.value, r);
        }
      }
      JoinSorted(page.entries, tail, page.next.value);
    }
  }

  lemma {:induction false} TablesGrow(fetches: seq<Fetch>, i: nat, j: nat, r: Row)
    requires Growing(fetches) && i <= j < |fetches| && r in fetches[i].table
    ensures r in fetches[j].table
    decreases j - i
  {
    if i < j {
      assert r in fetches[i + 1 - 1].table;
      TablesGrow(fetches, i + 1, j, r);
    }
  }

  lemma JoinSorted(a: seq<Row>, b: seq<Row>, at: Cursor)
    requires Sorted(a) && Sorted(b)
    requires forall r :: r in a ==> !Past(Some(at), r)
    requires forall r :: r in b ==> Past(Some(at), r)
    ensures Sorted(a + b)
  {
    forall i, j | 0 <= i < j < |a + b|
      ensures Before((a + b)[i].key, (a + b)[j].key)
    {
      if i < |a| <= j {
        assert a[i] in a && b[j - |a|] in b;
      }
    }
  }

  /** On a ledger that does not change, the pages concatenate to the ledger past the cursor. */
  lemma {:induction false} WalkOfUnchanged(fetches: seq<Fetch>, after: Option<Cursor>, table: seq<Row>)
    requires Sorted(table) && SteadyWalk(fetches, after, table)
    ensures Returned(fetches, after) == Rest(table, after)
    decreases |fetches|
  {
    hide Sorted, Rest;
    var page := PageOf(table, after, fetches[0].limit);
    if |fetches| == 1 {
      assert Returned(fetches[1..], page.next) == [];
    } else {
      NextRest(table, after, fetches[0].limit);
      assert fetches[1..][0] == fetches[1];
      WalkOfUnchanged(fetches[1..], page.next, table);
      var rest := Rest(table, after);
      assert rest == rest[..fetches[0].limit] + rest[fetches[0].limit..];
    }
  }

  /** A walk all of whose fetches see the same table. */
  ghost predicate SteadyWalk(fetches: seq<Fetch>, after: Option<Cursor>, table: seq<Row>) {
    && (forall i :: 0 <= i < |fetches| ==> fetches[i].limit > 0 && fetches[i].table == table)
    && Walk(fetches, after)
  }

  /** Resuming at a page's cursor continues exactly behind the page. */
  lemma NextRest(table: seq<Row>, after: Option<Cursor>, limit: nat)
    requires Sorted(table) && limit > 0 && PageOf(table, after, limit).next.Some?
    ensures Rest(table, PageOf(table, after, limit).next) == Rest(table, after)[limit..]
  {
    RestIsSuffix(table, after);
    var rest := Rest(table, after);
    var k := |table| - |rest|;
    var at := Some(rest[limit - 1].key);
    RestIsSuffix(table, at);
    var k' := |table| - |Rest(table, at)|;
    assert rest[limit - 1] == table[k + limit - 1] && rest[limit] == table[k + limit];
    assert Before(table[k + limit - 1].key, table[k + limit].key);
    assert !Past(at, table[k + limit - 1]) && Past(at, table[k + limit]);
    assert k' == k + limit;
    assert rest[limit..] == table[k + limit..];
  }

  /** The walk ends: on an unchanged ledger each further fetch has strictly less left to return. */
  lemma {:induction false} WalkEnds(table: seq<Row>, after: Option<Cursor>, limit: nat) returns (fetches: seq<Fetch>)
    requires Sorted(table) && limit > 0
    ensures SteadyWalk(fetches, after, table) && (|fetches| - 1) * limit <= |Rest(table, after)|
    decreases |Rest(table, after)|
  {
    if |Rest(table, after)| <= limit {
      fetches := [Fetch(table, limit)];
    } else {
      NextRest(table, after, limit);
      var page := PageOf(table, after, limit);
      var tail := WalkEnds(table, page.next, limit);
      fetches := [Fetch(table, limit)] + tail;
      assert fetches[1..] == tail;
      assert |tail| * limit == (|tail| - 1) * limit + limit;
    }
  }
}
