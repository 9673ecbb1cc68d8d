/**
 Where a wallet's money comes from: its opening amount, the wins that were not
 rolled back and the bets that still stand, and nothing else.
 */
module Conservation {
  import opened Prelude
  import opened Monetary
  import opened Tables
  import opened Domain
  import opened Engine
  import opened TxFacts

  /** What row k still contributes to wallet w. Refunds and rollbacks only cancel other rows. */
  ghost function Share(txs: seq<Tx>, k: nat, w: Id): int
    requires k < |txs|
  {
    var t := txs[k];
    if t.wallet != w || !t.state.Processed? then 0
    else
      match t.kind
      case Opening => t.amount
      case Win => if RolledBack(txs, k) then 0 else t.amount
      case Bet => if Standing(txs, k) then -t.amount else 0
      case _ => 0
  }

  ghost function TotalTo(txs: seq<Tx>, n: nat, w: Id): int
    requires n <= |txs|
  {
    if n == 0 then 0 else TotalTo(txs, n - 1, w) + Share(txs, n - 1, w)
  }

  /** The opening amount, plus wins not rolled back, minus bets still standing. */
  ghost function Total(txs: seq<Tx>, w: Id): int {
    TotalTo(txs, |txs|, w)
  }

  /** Two tables whose shares differ at one row only have totals that differ by that much. */
  lemma {:induction false} TotalDelta(txs: seq<Tx>, txs': seq<Tx>, w: Id, n: nat, at: nat, delta: int)
    requires n <= |txs| <= |txs'| && at < |txs|
    requires forall k :: 0 <= k < |txs| ==> Share(txs', k, w) == Share(txs, k, w) + if k == at then delta else 0
    ensures TotalTo(txs', n, w) == TotalTo(txs, n, w) + if at < n then delta else 0
  {
    if n > 0 {
      TotalDelta(txs, txs', w, n - 1, at, delta);
    }
  }

  lemma {:induction false} TotalSame(txs: seq<Tx>, txs': seq<Tx>, w: Id, n: nat)
    requires n <= |txs| <= |txs'|
    requires forall k :: 0 <= k < |txs| ==> Share(txs', k, w) == Share(txs, k, w)
    ensures TotalTo(txs', n, w) == TotalTo(txs, n, w)
  {
    if n > 0 {
      TotalSame(txs, txs', w, n - 1);
    }
  }

  // ---------------------------------------------------------------------
  // How a write changes who reverses whom
  // ---------------------------------------------------------------------

  ghost predicate RefsNamed(txs: seq<Tx>) {
    forall k :: 0 <= k < |txs| && txs[k].state.Processed? && IsReversal(txs[k].kind) ==> txs[k].ref != ""
  }

  /** The situation of one write at position i: everything else as it was. */
  ghost predicate Written(txs: seq<Tx>, slot: Option<nat>, row: Tx) {
    && UniqueKeys(txs) && RefsOk(txs) && RefsNamed(txs) && Fits(txs, slot, row)
    && (row.state.Processed? && IsReversal(row.kind) ==> row.ref != "" && RefersTo(txs, row))
  }

  /** Old reversals stay; the written row adds at most its own. */
  lemma ReversesAfter(txs: seq<Tx>, slot: Option<nat>, row: Tx, j: nat, k: nat)
    requires Written(txs, slot, row)
    ensures var txs' := Put(txs, slot, row); var i := Position(txs, slot);
            Reverses(txs', j, k) <==>
              || Reverses(txs, j, k)
              || (j == i && row.state.Processed? && IsReversal(row.kind) && RefIndex(txs, row) == Some(k))
  {
    var txs' := Put(txs, slot, row);
    var i := Position(txs, slot);
    PutKeeps(txs, slot, row);
    PutOthers(txs, slot, row);
    if Reverses(txs', j, k) {
      if j == i {
        RefersToExtends(txs, txs', row);
        ExternalIs(txs', row.provider, row.ref, k);
      } else if k == i && slot.None? {
        Unreferenced(txs, j, row);
      }
    }
    if j == i && row.state.Processed? && IsReversal(row.kind) && RefIndex(txs, row) == Some(k) {
      RefersToExtends(txs, txs', row);
    }
  }

  /** Nothing reverses the written row itself. */
  lemma NotReversedYet(txs: seq<Tx>, slot: Option<nat>, row: Tx)
    requires Written(txs, slot, row)
    ensures !Reversed(Put(txs, slot, row), Position(txs, slot))
  {
    var txs' := Put(txs, slot, row);
    var i := Position(txs, slot);
    if j: nat :| Reverses(txs', j, i) {
      ReversesAfter(txs, slot, row, j, i);
      if Reverses(txs, j, i) {
        Unreferenced(txs, j, txs[i]);
      }
    }
  }

  /** What the written row reverses was not reversed before: its slot was free. */
  lemma TargetWasFree(txs: seq<Tx>, slot: Option<nat>, row: Tx)
    requires Written(txs, slot, row) && row.state.Processed? && IsReversal(row.kind)
    ensures !Reversed(txs, RefIndex(txs, row).value)
  {
    var k := RefIndex(txs, row).value;
    forall j: nat
      ensures !Reverses(txs, j, k)
    {
    }
  }

  lemma NotRolledBack(txs: seq<Tx>, k: nat)
    requires !Reversed(txs, k)
    ensures !RolledBack(txs, k)
  {
    forall j: nat
      ensures !RolledBackBy(txs, j, k)
    {
      assert !Reverses(txs, j, k);
    }
  }

  lemma RolledBackAfter(txs: seq<Tx>, slot: Option<nat>, row: Tx, k: nat)
    requires Written(txs, slot, row)
    ensures RolledBack(Put(txs, slot, row), k) <==>
              RolledBack(txs, k) || (row.state.Processed? && row.kind.Rollback? && RefIndex(txs, row) == Some(k))
  {
    var txs' := Put(txs, slot, row);
    var i := Position(txs, slot);
    PutOthers(txs, slot, row);
    if j: nat :| RolledBackBy(txs', j, k) {
      ReversesAfter(txs, slot, row, j, k);
      if Reverses(txs, j, k) {
        assert j == i ==> slot.Some?;
        assert RolledBackBy(txs, j, k);
      }
    }
    if j: nat :| RolledBackBy(txs, j, k) {
      ReversesAfter(txs, slot, row, j, k);
      assert RolledBackBy(txs', j, k);
    }
    if row.state.Processed? && row.kind.Rollback? && RefIndex(txs, row) == Some(k) {
      ReversesAfter(txs, slot, row, i, k);
      assert RolledBackBy(txs', i, k);
    }
  }

  /** A bet is affected only through its own reversal or through the reversal of its refund. */
  lemma StandingSame(txs: seq<Tx>, slot: Option<nat>, row: Tx, k: nat)
    requires Written(txs, slot, row) && k < |txs|
    requires row.state.Processed? && IsReversal(row.kind) ==>
               RefIndex(txs, row) != Some(k) && !Reverses(txs, RefIndex(txs, row).value, k)
    ensures Standing(Put(txs, slot, row), k) <==> Standing(txs, k)
  {
    var txs' := Put(txs, slot, row);
    PutOthers(txs, slot, row);
    forall j: nat
      ensures Reverses(txs', j, k) <==> Reverses(txs, j, k)
      ensures Reverses(txs, j, k) ==> (UndoneRefund(txs', j, k) <==> UndoneRefund(txs, j, k))
    {
      ReversesAfter(txs, slot, row, j, k);
      if Reverses(txs, j, k) {
        RolledBackAfter(txs, slot, row, j);
        assert txs'[j] == txs[j];
      }
    }
    assert Reversed(txs', k) <==> Reversed(txs, k);
  }

  /** A bet falls when it is refunded or rolled back. */
  lemma TargetFalls(txs: seq<Tx>, slot: Option<nat>, row: Tx)
    requires Written(txs, slot, row) && row.state.Processed? && IsReversal(row.kind)
    ensures var k := RefIndex(txs, row).value; Standing(txs, k) && !Standing(Put(txs, slot, row), k)
  {
    var txs' := Put(txs, slot, row);
    var i, k := Position(txs, slot), RefIndex(txs, row).value;
    TargetWasFree(txs, slot, row);
    ReversesAfter(txs, slot, row, i, k);
    NotReversedYet(txs, slot, row);
    NotRolledBack(txs', i);
    forall j: nat
      ensures !UndoneRefund(txs', j, k)
    {
      ReversesAfter(txs, slot, row, j, k);
    }
  }

  /** A refunded bet stands again when its refund is rolled back. */
  lemma RefundUndone(txs: seq<Tx>, slot: Option<nat>, row: Tx, b: nat)
    requires Written(txs, slot, row) && row.state.Processed? && row.kind.Rollback?
    requires var k := RefIndex(txs, row).value; Reverses(txs, k, b) && txs[k].kind.Refund?
    ensures !Standing(txs, b) && Standing(Put(txs, slot, row), b)
  {
    var txs' := Put(txs, slot, row);
    var k := RefIndex(txs, row).value;
    TargetWasFree(txs, slot, row);
    NotRolledBack(txs, k);
    forall j: nat | Reverses(txs, j, b)
      ensures !UndoneRefund(txs, j, b)
    {
      OneReversal(txs, j, k, b);
    }
    ReversesAfter(txs, slot, row, k, b);
    RolledBackAfter(txs, slot, row, k);
    PutKeeps(txs, slot, row);
    assert UndoneRefund(txs', k, b);
  }

  // ---------------------------------------------------------------------
  // How a write changes the total
  // ---------------------------------------------------------------------

  /** The amount a written row moves on its wallet. */
  function Moved(txs: seq<Tx>, row: Tx): int {
    if !row.state.Processed? || row.kind.Loss? then 0
    else if DirectionOf(txs, row).Credit? then row.amount
    else -row.amount
  }

  /** Shares of rows the write does not concern. */
  lemma ShareSame(txs: seq<Tx>, slot: Option<nat>, row: Tx, k: nat, w: Id)
    requires Written(txs, slot, row) && k < |txs| && k != Position(txs, slot)
    requires row.state.Processed? && IsReversal(row.kind) ==>
               RefIndex(txs, row) != Some(k) && !Reverses(txs, RefIndex(txs, row).value, k)
    ensures Share(Put(txs, slot, row), k, w) == Share(txs, k, w)
  {
    PutOthers(txs, slot, row);
    StandingSame(txs, slot, row, k);
    RolledBackAfter(txs, slot, row, k);
  }

  /** A row that reverses nothing: only its own share appears. */
  lemma PlainTotal(txs: seq<Tx>, slot: Option<nat>, row: Tx, w: Id)
    requires Written(txs, slot, row) && !(row.state.Processed? && IsReversal(row.kind))
    requires slot.Some? ==> !row.state.Processed?
    ensures Total(Put(txs, slot, row), w) == Total(txs, w) + if w == row.wallet then Moved(txs, row) else 0
  {
    var txs' := Put(txs, slot, row);
    var i := Position(txs, slot);
    PutOthers(txs, slot, row);
    PutKeeps(txs, slot, row);
    forall k | 0 <= k < |txs|
      ensures Share(txs', k, w) == Share(txs, k, w)
    {
      if k != i {
        ShareSame(txs, slot, row, k, w);
      }
    }
    TotalSame(txs, txs', w, |txs|);
    if slot.None? {
      NotReversedYet(txs, slot, row);
      NotRolledBack(txs', i);
    }
  }

  /** A reversal: the share of what it cancels changes by the movement. */
  lemma ReversalTotal(txs: seq<Tx>, slot: Option<nat>, row: Tx, w: Id, at: nat)
    requires Written(txs, slot, row) && row.state.Processed? && IsReversal(row.kind) && at < |txs|
    requires at != Position(txs, slot)
    requires Share(Put(txs, slot, row), at, w) == Share(txs, at, w) + if w == row.wallet then Moved(txs, row) else 0
    requires forall k :: 0 <= k < |txs| && k != at && k != Position(txs, slot) ==> Share(Put(txs, slot, row), k, w) == Share(txs, k, w)
    ensures Total(Put(txs, slot, row), w) == Total(txs, w) + if w == row.wallet then Moved(txs, row) else 0
  {
    var txs' := Put(txs, slot, row);
    var i := Position(txs, slot);
    PutKeeps(txs, slot, row);
    if slot.Some? {
      assert Share(txs, i, w) == 0 == Share(txs', i, w);
    }
    TotalDelta(txs, txs', w, |txs|, at, if w == row.wallet then Moved(txs, row) else 0);
  }

  /** Refunds, and rollbacks of bets and wins: the reversed row is the one whose share changes. */
  lemma DirectReversalTotal(txs: seq<Tx>, slot: Option<nat>, row: Tx, w: Id)
    requires Written(txs, slot, row) && row.state.Processed? && IsReversal(row.kind)
    requires !txs[RefIndex(txs, row).value].kind.Refund?
    ensures Total(Put(txs, slot, row), w) == Total(txs, w) + if w == row.wallet then Moved(txs, row) else 0
  {
    var txs' := Put(txs, slot, row);
    var i, k := Position(txs, slot), RefIndex(txs, row).value;
    PutOthers(txs, slot, row);
    forall k' | 0 <= k' < |txs| && k' != k && k' != i
      ensures Share(txs', k', w) == Share(txs, k', w)
    {
      ShareSame(txs, slot, row, k', w);
    }
    TargetFalls(txs, slot, row);
    TargetWasFree(txs, slot, row);
    RolledBackAfter(txs, slot, row, k);
    NotRolledBack(txs, k);
    ReversalTotal(txs, slot, row, w, k);
  }

  /** Rollbacks of refunds: the refunded bet stands again. */
  lemma RefundRollbackTotal(txs: seq<Tx>, slot: Option<nat>, row: Tx, w: Id)
    requires Written(txs, slot, row) && row.state.Processed? && IsReversal(row.kind)
    requires txs[RefIndex(txs, row).value].kind.Refund? && txs[RefIndex(txs, row).value].ref != ""
    ensures Total(Put(txs, slot, row), w) == Total(txs, w) + if w == row.wallet then Moved(txs, row) else 0
  {
    var txs' := Put(txs, slot, row);
    var i, k := Position(txs, slot), RefIndex(txs, row).value;
    assert RefersTo(txs, row);
    assert RefersTo(txs, txs[k]);
    var b := RefIndex(txs, txs[k]).value;
    assert Reverses(txs, k, b);
    PutOthers(txs, slot, row);
    forall k' | 0 <= k' < |txs| && k' != b && k' != i
      ensures Share(txs', k', w) == Share(txs, k', w)
    {
      if k' != k {
        if Reverses(txs, k, k') {
          OneReversed(txs, k, k', b);
        }
        ShareSame(txs, slot, row, k', w);
      }
    }
    RefundUndone(txs, slot, row, b);
    ReversalTotal(txs, slot, row, w, b);
  }

  /** Every write changes its wallet's total by its movement, and no other wallet's. */
  lemma PutTotal(txs: seq<Tx>, slot: Option<nat>, row: Tx, w: Id)
    requires Written(txs, slot, row) && (slot.Some? && row.state.Processed? ==> IsReversal(row.kind))
    ensures Total(Put(txs, slot, row), w) == Total(txs, w) + if w == row.wallet then Moved(txs, row) else 0
  {
    if !(row.state.Processed? && IsReversal(row.kind)) {
      PlainTotal(txs, slot, row, w);
    } else if txs[RefIndex(txs, row).value].kind.Refund? {
      RefundRollbackTotal(txs, slot, row, w);
    } else {
      DirectReversalTotal(txs, slot, row, w);
    }
  }
}
