/** Committing a sound change keeps every invariant of the database. */
module Commits {
  import opened Prelude
  import opened Monetary
  import opened Tables
  import opened Domain
  import opened Engine
  import opened TxFacts
  import opened Conservation
  import opened Invariants

  // ---------------------------------------------------------------------
  // Transaction rows
  // ---------------------------------------------------------------------

  /** A sound change is the kind of write the conservation lemmas speak about. */
  lemma ChangeWritten(db: Db, slot: Option<nat>, ch: Change)
    requires TxInv(db.wallets, db.txs) && ChangeOk(db, slot, ch)
    ensures Written(db.txs, slot, ch.row)
  {
  }

  lemma SoundReplays(txs: seq<Tx>, ch: Change)
    requires ch.Settle? && Sound(txs, ch)
    ensures ReplayResult(ch.row) == Ok(ch.result)
  {
    ResultRoundTrip(ch.result);
  }

  /** Wallets keep their currency and none disappears. */
  ghost predicate SameCurrencies(wallets: map<Id, Wallet>, wallets': map<Id, Wallet>) {
    forall w :: w in wallets ==> w in wallets' && wallets'[w].currency == wallets[w].currency
  }

  lemma PutTxInv(wallets: map<Id, Wallet>, wallets': map<Id, Wallet>, txs: seq<Tx>, slot: Option<nat>, row: Tx)
    requires TxInv(wallets, txs) && Written(txs, slot, row) && SameCurrencies(wallets, wallets') && RowOk(wallets', row)
    ensures TxInv(wallets', Put(txs, slot, row))
  {
    PutKeeps(txs, slot, row);
    PutRefs(txs, slot, row);
    PutOthers(txs, slot, row);
    var txs' := Put(txs, slot, row);
    forall k | 0 <= k < |txs'|
      ensures RowOk(wallets', txs'[k])
    {
      if k != Position(txs, slot) {
        assert RowOk(wallets, txs[k]);
      }
    }
  }

  // ---------------------------------------------------------------------
  // The ledger
  // ---------------------------------------------------------------------

  lemma ChainedAppend(ledger: seq<Entry>, e: Entry)
    requires Chained(ledger) && e.before == BalanceAt(ledger, e.wallet)
    requires Balances(e.direction, e.value, e.before, e.after) && e.after <= MAX_INT64
    ensures Chained(ledger + [e])
  {
    var ledger' := ledger + [e];
    forall i | 0 <= i < |ledger'|
      ensures ledger'[i].before == BalanceAt(ledger'[..i], ledger'[i].wallet)
    {
      assert ledger'[..i] == ledger[..i];
      assert i == |ledger| ==> ledger[..i] == ledger;
    }
  }

  /** Movements already posted stay posted. */
  lemma PostsStable(txs: seq<Tx>, slot: Option<nat>, row: Tx, k: nat, e: Entry)
    requires UniqueKeys(txs) && RefsOk(txs) && Fits(txs, slot, row) && Posts(txs, k, e)
    ensures Posts(Put(txs, slot, row), k, e)
  {
    var txs' := Put(txs, slot, row);
    PutKeeps(txs, slot, row);
    assert txs'[k] == txs[k];
    if txs[k].kind.Rollback? {
      RefersToExtends(txs, txs', txs[k]);
      var r := RefIndex(txs, txs[k]).value;
      assert txs'[r] == txs[r];
    }
  }

  lemma PostedStable(txs: seq<Tx>, slot: Option<nat>, row: Tx, k: nat, ledger: seq<Entry>, more: seq<Entry>)
    requires UniqueKeys(txs) && RefsOk(txs) && Fits(txs, slot, row) && Posted(txs, k, ledger)
    ensures Posted(Put(txs, slot, row), k, ledger + more)
  {
    var i :| 0 <= i < |ledger| && Posts(txs, k, ledger[i]);
    PostsStable(txs, slot, row, k, ledger[i]);
    assert (ledger + more)[i] == ledger[i];
  }

  /** A row that does not move leaves the correspondence as it is. */
  lemma QuietOneToOne(txs: seq<Tx>, slot: Option<nat>, row: Tx, ledger: seq<Entry>)
    requires UniqueKeys(txs) && RefsOk(txs) && Fits(txs, slot, row) && OneToOne(txs, ledger)
    requires !row.state.Processed? || row.kind.Loss?
    ensures OneToOne(Put(txs, slot, row), ledger)
  {
    var txs' := Put(txs, slot, row);
    PutKeeps(txs, slot, row);
    PutOthers(txs, slot, row);
    forall i | 0 <= i < |ledger|
      ensures Explained(txs', ledger[i])
    {
      assert Explained(txs, ledger[i]);
      var k: nat :| Posts(txs, k, ledger[i]);
      PostsStable(txs, slot, row, k, ledger[i]);
    }
    forall k | 0 <= k < |txs'| && txs'[k].state.Processed? && !txs'[k].kind.Loss?
      ensures Posted(txs', k, ledger)
    {
      PostedStable(txs, slot, row, k, ledger, []);
      assert ledger + [] == ledger;
    }
  }

  /** A row that moves brings its own entry, under an id no entry has yet. */
  lemma MovedExplained(txs: seq<Tx>, slot: Option<nat>, row: Tx, ledger: seq<Entry>, i: nat)
    requires UniqueKeys(txs) && RefsOk(txs) && Fits(txs, slot, row) && i < |ledger| && Explained(txs, ledger[i])
    ensures Explained(Put(txs, slot, row), ledger[i]) && ledger[i].tx != row.id
  {
    var k: nat :| Posts(txs, k, ledger[i]);
    PostsStable(txs, slot, row, k, ledger[i]);
    assert txs[k].state.Processed?;
  }

  lemma MovedPosted(txs: seq<Tx>, slot: Option<nat>, row: Tx, ledger: seq<Entry>, e: Entry, k: nat)
    requires UniqueKeys(txs) && RefsOk(txs) && Fits(txs, slot, row) && Posts(Put(txs, slot, row), Position(txs, slot), e)
    requires k == Position(txs, slot) || Posted(txs, k, ledger)
    ensures Posted(Put(txs, slot, row), k, ledger + [e])
  {
    if k == Position(txs, slot) {
      assert Posts(Put(txs, slot, row), k, (ledger + [e])[|ledger|]);
    } else {
      PostedStable(txs, slot, row, k, ledger, [e]);
    }
  }

  lemma MovedAllPosted(txs: seq<Tx>, slot: Option<nat>, row: Tx, ledger: seq<Entry>, e: Entry)
    requires UniqueKeys(txs) && RefsOk(txs) && Fits(txs, slot, row) && AllPosted(txs, ledger)
    requires Posts(Put(txs, slot, row), Position(txs, slot), e)
    ensures AllPosted(Put(txs, slot, row), ledger + [e])
  {
    var txs' := Put(txs, slot, row);
    forall k | 0 <= k < |txs'| && txs'[k].state.Processed? && !txs'[k].kind.Loss?
      ensures Posted(txs', k, ledger + [e])
    {
      PutOthers(txs, slot, row);
      MovedPosted(txs, slot, row, ledger, e, k);
    }
  }

  lemma MovedAllExplained(txs: seq<Tx>, slot: Option<nat>, row: Tx, ledger: seq<Entry>, e: Entry)
    requires UniqueKeys(txs) && RefsOk(txs) && Fits(txs, slot, row) && AllExplained(txs, ledger)
    requires Explained(Put(txs, slot, row), e)
    ensures AllExplained(Put(txs, slot, row), ledger + [e])
    ensures forall i :: 0 <= i < |ledger| ==> ledger[i].tx != row.id
  {
    forall i | 0 <= i < |ledger|
      ensures Explained(Put(txs, slot, row), ledger[i]) && ledger[i].tx != row.id
    {
      MovedExplained(txs, slot, row, ledger, i);
    }
  }

  lemma MovedOneToOne(txs: seq<Tx>, slot: Option<nat>, row: Tx, ledger: seq<Entry>, e: Entry)
    requires UniqueKeys(txs) && RefsOk(txs) && Fits(txs, slot, row) && OneToOne(txs, ledger)
    requires Posts(Put(txs, slot, row), Position(txs, slot), e) && e.tx == row.id
    ensures OneToOne(Put(txs, slot, row), ledger + [e])
  {
    MovedAllPosted(txs, slot, row, ledger, e);
    MovedAllExplained(txs, slot, row, ledger, e);
  }

  /** The direction decided before the write is the one read off the table after it. */
  lemma DirectionStable(txs: seq<Tx>, slot: Option<nat>, row: Tx)
    requires Written(txs, slot, row) && row.state.Processed?
    ensures DirectionOf(Put(txs, slot, row), row) == DirectionOf(txs, row)
  {
    if row.kind.Rollback? {
      PutKeeps(txs, slot, row);
      RefersToExtends(txs, Put(txs, slot, row), row);
      var k := RefIndex(txs, row).value;
      assert Put(txs, slot, row)[k] == txs[k];
    }
  }

  lemma SettleLedger(db: Db, slot: Option<nat>, ch: Change, orderings: seq<nat>)
    requires TxInv(db.wallets, db.txs) && LedgerInv(db.txs, db.ledger)
    requires ch.Settle? && ChangeOk(db, slot, ch) && |orderings| == EventCount(ch)
    requires ch.wallet.balance == BalanceAt(db.ledger, ch.row.wallet)
    ensures var db' := Commit(db, slot, ch, orderings); LedgerInv(db'.txs, db'.ledger)
  {
    ChangeWritten(db, slot, ch);
    if ch.move.Some? {
      var e := EntryOf(ch);
      ChainedAppend(db.ledger, e);
      DirectionStable(db.txs, slot, ch.row);
      PutKeeps(db.txs, slot, ch.row);
      MovedOneToOne(db.txs, slot, ch.row, db.ledger, e);
    } else {
      QuietOneToOne(db.txs, slot, ch.row, db.ledger);
    }
  }

  // ---------------------------------------------------------------------
  // Wallets
  // ---------------------------------------------------------------------

  lemma BaseStable(txs: seq<Tx>, slot: Option<nat>, row: Tx, w: Id)
    requires Fits(txs, slot, row) && (slot.None? && row.kind.Opening? ==> row.wallet != w)
    ensures Base(Put(txs, slot, row), w) == Base(txs, w)
  {
    var txs' := Put(txs, slot, row);
    PutOthers(txs, slot, row);
    if HasOpening(txs', w) {
      var k :| 0 <= k < |txs'| && txs'[k].kind.Opening? && txs'[k].wallet == w;
      assert txs[k].kind.Opening? && txs[k].wallet == w;
    }
    if HasOpening(txs, w) {
      var k :| 0 <= k < |txs| && txs[k].kind.Opening? && txs[k].wallet == w;
      assert txs'[k].kind.Opening? && txs'[k].wallet == w;
    }
  }

  /** What appending an entry does to every wallet's view of the ledger. */
  lemma AppendEntry(ledger: seq<Entry>, e: Entry, w: Id)
    ensures BalanceAt(ledger + [e], w) == if e.wallet == w then e.after else BalanceAt(ledger, w)
    ensures EntriesOf(ledger + [e], w) == if e.wallet == w then EntriesOf(ledger, w) + [e] else EntriesOf(ledger, w)
  {
    assert (ledger + [e])[..|ledger|] == ledger;
  }

  /** One wallet across a commit. */
  lemma SettleWallet(txs: seq<Tx>, ledger: seq<Entry>, slot: Option<nat>, ch: Change, w: Id, was: Wallet)
    requires ch.Settle? && Sound(txs, ch) && !ch.row.kind.Opening? && Written(txs, slot, ch.row)
    requires slot.Some? && ch.row.state.Processed? ==> IsReversal(ch.row.kind)
    requires WalletOk(txs, ledger, w, was) && (w == ch.row.wallet ==> ch.wallet == was)
    ensures var txs' := Put(txs, slot, ch.row);
            if ch.move.None? then WalletOk(txs', ledger, w, was)
            else
              && (w != ch.row.wallet ==> WalletOk(txs', ledger + [EntryOf(ch)], w, was))
              && (w == ch.row.wallet ==> WalletOk(txs', ledger + [EntryOf(ch)], w, was.(balance := ch.result.balance, version := was.version + 1)))
  {
    PutTotal(txs, slot, ch.row, w);
    BaseStable(txs, slot, ch.row, w);
    if ch.move.Some? {
      AppendEntry(ledger, EntryOf(ch), w);
    }
  }

  lemma SettleRows(db: Db, slot: Option<nat>, ch: Change, orderings: seq<nat>)
    requires TxInv(db.wallets, db.txs) && ch.Settle? && ChangeOk(db, slot, ch) && |orderings| == EventCount(ch)
    ensures var db' := Commit(db, slot, ch, orderings); TxInv(db'.wallets, db'.txs)
  {
    ChangeWritten(db, slot, ch);
    SoundReplays(db.txs, ch);
    var db' := Commit(db, slot, ch, orderings);
    assert RowOk(db'.wallets, ch.row);
    PutTxInv(db.wallets, db'.wallets, db.txs, slot, ch.row);
  }

  lemma SettleWallets(db: Db, slot: Option<nat>, ch: Change, orderings: seq<nat>)
    requires TxInv(db.wallets, db.txs) && WalletInv(db.wallets, db.txs, db.ledger)
    requires ch.Settle? && ChangeOk(db, slot, ch) && !ch.row.kind.Opening? && |orderings| == EventCount(ch)
    ensures var db' := Commit(db, slot, ch, orderings); WalletInv(db'.wallets, db'.txs, db'.ledger)
  {
    var db' := Commit(db, slot, ch, orderings);
    ChangeWritten(db, slot, ch);
    forall w | w in db'.wallets
      ensures WalletOk(db'.txs, db'.ledger, w, db'.wallets[w])
    {
      SettleWallet(db.txs, db.ledger, slot, ch, w, db.wallets[w]);
    }
  }

  lemma SettleCore(db: Db, slot: Option<nat>, ch: Change, orderings: seq<nat>)
    requires CoreInv(db) && ch.Settle? && ChangeOk(db, slot, ch) && !ch.row.kind.Opening? && |orderings| == EventCount(ch)
    ensures CoreInv(Commit(db, slot, ch, orderings))
  {
    SettleRows(db, slot, ch, orderings);
    assert WalletOk(db.txs, db.ledger, ch.row.wallet, ch.wallet);
    SettleLedger(db, slot, ch, orderings);
    SettleWallets(db, slot, ch, orderings);
  }

  lemma PostponeCore(db: Db, slot: Option<nat>, ch: Change)
    requires CoreInv(db) && ch.Postpone? && ChangeOk(db, slot, ch)
    ensures CoreInv(Commit(db, slot, ch, []))
  {
    var db' := Commit(db, slot, ch, []);
    ChangeWritten(db, slot, ch);
    assert RowOk(db.wallets, db.txs[slot.value]);
    assert RowOk(db.wallets, ch.row);
    PutTxInv(db.wallets, db.wallets, db.txs, slot, ch.row);
    QuietOneToOne(db.txs, slot, ch.row, db.ledger);
    forall w | w in db'.wallets
      ensures WalletOk(db'.txs, db'.ledger, w, db'.wallets[w])
    {
      PutTotal(db.txs, slot, ch.row, w);
      BaseStable(db.txs, slot, ch.row, w);
      assert WalletOk(db.txs, db.ledger, w, db.wallets[w]);
    }
  }
}
