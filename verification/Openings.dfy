/** Opening a wallet keeps the invariant, with or without an opening amount. */
module Openings {
  import opened Prelude
  import opened Monetary
  import opened Tables
  import opened Domain
  import opened Engine
  import opened TxFacts
  import opened Conservation
  import opened Invariants
  import opened Commits
  import opened CommitEvents

  lemma {:induction false} NoEntries(ledger: seq<Entry>, w: Id)
    requires forall i :: 0 <= i < |ledger| ==> ledger[i].wallet != w
    ensures BalanceAt(ledger, w) == 0 && EntriesOf(ledger, w) == []
  {
    if ledger != [] {
      NoEntries(ledger[..|ledger| - 1], w);
    }
  }

  lemma {:induction false} NoShare(txs: seq<Tx>, n: nat, w: Id)
    requires n <= |txs| && forall k :: 0 <= k < |txs| ==> txs[k].wallet != w
    ensures TotalTo(txs, n, w) == 0
  {
    if n > 0 {
      NoShare(txs, n - 1, w);
    }
  }

  /** A wallet that does not exist has left no trace. */
  lemma NoTrace(db: Db, id: Id)
    requires CoreInv(db) && id !in db.wallets
    ensures BalanceAt(db.ledger, id) == 0 && EntriesOf(db.ledger, id) == [] && Total(db.txs, id) == 0 && !HasOpening(db.txs, id)
  {
    NoEntries(db.ledger, id);
    forall k | 0 <= k < |db.txs|
      ensures db.txs[k].wallet != id
    {
      assert RowOk(db.wallets, db.txs[k]);
    }
    NoShare(db.txs, |db.txs|, id);
  }

  lemma MoreWallets(wallets: map<Id, Wallet>, txs: seq<Tx>, id: Id, w: Wallet)
    requires TxInv(wallets, txs) && id !in wallets
    ensures TxInv(wallets[id := w], txs)
  {
    forall k | 0 <= k < |txs|
      ensures RowOk(wallets[id := w], txs[k])
    {
      assert RowOk(wallets, txs[k]);
    }
  }

  lemma MoreOwners(wallets: map<Id, Wallet>, id: Id, w: Wallet)
    requires OwnersInv(wallets) && id !in wallets
    requires forall v :: v in wallets ==> !(wallets[v].player == w.player && wallets[v].currency == w.currency)
    ensures OwnersInv(wallets[id := w])
  {
  }

  /** The free owner slot of UNIQUE (player_id, currency). */
  ghost predicate OwnerFree(wallets: map<Id, Wallet>, player: string, currency: string) {
    forall v :: v in wallets ==> !(wallets[v].player == player && wallets[v].currency == currency)
  }

  lemma EmptyOpeningCore(db: Db, id: Id, w: Wallet)
    requires CoreInv(db) && id !in db.wallets && WalletEventsOk(db.wallets, db.txs, db.ledger, db.outbox)
    requires ValidCurrency(w.currency) && w.player != "" && w.balance == 0 && w.version == 1
    ensures CoreInv(db.(wallets := db.wallets[id := w]))
    ensures WalletEventsOk(db.wallets[id := w], db.txs, db.ledger, db.outbox)
  {
    NoTrace(db, id);
    MoreWallets(db.wallets, db.txs, id, w);
    var wallets' := db.wallets[id := w];
    forall v | v in wallets'
      ensures WalletOk(db.txs, db.ledger, v, wallets'[v])
    {
      assert v != id ==> WalletOk(db.txs, db.ledger, v, db.wallets[v]);
    }
    forall v: Id
      ensures if v in wallets'
              then ReportsAll(EventsFor(db.outbox, WalletAggregate(v)), EntriesOf(db.ledger, v), Base(db.txs, v))
              else EventsFor(db.outbox, WalletAggregate(v)) == []
    {
      assert v == id ==> EventsFor(db.outbox, WalletAggregate(id)) == [];
    }
  }

  lemma EmptyOpeningKeeps(db: Db, id: Id, player: string, opening: Money)
    requires Inv(db) && id !in db.wallets && OwnerFree(db.wallets, player, opening.currency)
    requires ValidOpening(player, opening) && opening.minor == 0
    ensures Inv(CommitOpening(db, id, 0, player, opening, []))
  {
    EmptyOpeningCore(db, id, Wallet(player, opening.currency, 0, 1));
    MoreOwners(db.wallets, id, Wallet(player, opening.currency, 0, 1));
  }

  // ---------------------------------------------------------------------
  // An opening with an amount
  // ---------------------------------------------------------------------

  /** The conditions under which a funded opening commits. */
  ghost predicate OpeningOk(db: Db, id: Id, txId: Id, player: string, opening: Money) {
    && id !in db.wallets && OwnerFree(db.wallets, player, opening.currency)
    && ValidOpening(player, opening) && opening.minor > 0
    && KeysFree(db.txs, OpeningRow(id, txId, player, opening))
  }

  /** The database with the wallet row inserted and nothing else. */
  function WithUnopened(db: Db, id: Id, player: string, opening: Money): Db {
    db.(wallets := db.wallets[id := Unopened(player, opening)])
  }

  /** What a funded opening leaves in each table. */
  lemma OpeningShape(db: Db, id: Id, txId: Id, player: string, opening: Money, orderings: seq<nat>)
    requires |orderings| == 2 && opening.minor > 0
    ensures var db' := CommitOpening(db, id, txId, player, opening, orderings); var ch := OpeningChange(id, txId, player, opening);
            && db'.wallets == db.wallets[id := Wallet(player, opening.currency, opening.minor, 1)]
            && db'.txs == Put(db.txs, None, ch.row) && db'.ledger == db.ledger + [EntryOf(ch)]
            && db'.outbox == db.outbox + Events(ch, orderings) && db'.inbox == db.inbox && db'.nextOrdering == db.nextOrdering
  {
  }

  lemma OpeningSound(db: Db, id: Id, txId: Id, player: string, opening: Money)
    requires OpeningOk(db, id, txId, player, opening)
    ensures ChangeOk(WithUnopened(db, id, player, opening), None, OpeningChange(id, txId, player, opening))
  {
  }

  /** Every wallet after a funded opening: the new one stands at its amount, the others are as before. */
  lemma OpeningWallet(txs: seq<Tx>, ledger: seq<Entry>, ch: Change, w: Id, was: Option<Wallet>)
    requires ch.Settle? && ch.row.kind.Opening? && ch.move == Some(Credit) && ch.row.state.Processed? && Sound(txs, ch)
    requires Written(txs, None, ch.row) && ch.wallet.balance == 0
    requires was.Some? ==> w != ch.row.wallet && WalletOk(txs, ledger, w, was.value)
    requires was.None? ==> w == ch.row.wallet && BalanceAt(ledger, w) == 0 && EntriesOf(ledger, w) == [] && Total(txs, w) == 0
    ensures var txs' := Put(txs, None, ch.row); var ledger' := ledger + [EntryOf(ch)];
            && (was.Some? ==> WalletOk(txs', ledger', w, was.value) && Base(txs', w) == Base(txs, w))
            && (was.None? ==> Base(txs', w) == 0 && BalanceAt(ledger', w) == ch.row.amount == Total(txs', w) && EntriesOf(ledger', w) == [EntryOf(ch)])
  {
    AppendEntry(ledger, EntryOf(ch), w);
    PutTotal(txs, None, ch.row, w);
    if was.None? {
      assert Put(txs, None, ch.row)[|txs|].kind.Opening?;
    } else {
      BaseStable(txs, None, ch.row, w);
    }
  }

  lemma OpeningWritten(db: Db, id: Id, txId: Id, player: string, opening: Money)
    requires CoreInv(db) && OpeningOk(db, id, txId, player, opening)
    ensures Written(db.txs, None, OpeningChange(id, txId, player, opening).row)
    ensures Sound(db.txs, OpeningChange(id, txId, player, opening))
  {
    OpeningSound(db, id, txId, player, opening);
    MoreWallets(db.wallets, db.txs, id, Unopened(player, opening));
    ChangeWritten(WithUnopened(db, id, player, opening), None, OpeningChange(id, txId, player, opening));
  }

  lemma OpeningTables(db: Db, id: Id, txId: Id, player: string, opening: Money, orderings: seq<nat>)
    requires CoreInv(db) && OpeningOk(db, id, txId, player, opening) && |orderings| == 2
    ensures var db' := CommitOpening(db, id, txId, player, opening, orderings);
            TxInv(db'.wallets, db'.txs) && LedgerInv(db'.txs, db'.ledger)
  {
    var mid := WithUnopened(db, id, player, opening);
    OpeningSound(db, id, txId, player, opening);
    MoreWallets(db.wallets, db.txs, id, Unopened(player, opening));
    NoTrace(db, id);
    SettleRows(mid, None, OpeningChange(id, txId, player, opening), orderings);
    SettleLedger(mid, None, OpeningChange(id, txId, player, opening), orderings);
  }

  lemma OpeningWallets(db: Db, id: Id, txId: Id, player: string, opening: Money, orderings: seq<nat>)
    requires CoreInv(db) && OpeningOk(db, id, txId, player, opening) && |orderings| == 2
    ensures var db' := CommitOpening(db, id, txId, player, opening, orderings); WalletInv(db'.wallets, db'.txs, db'.ledger)
  {
    var ch := OpeningChange(id, txId, player, opening);
    var db' := CommitOpening(db, id, txId, player, opening, orderings);
    OpeningShape(db, id, txId, player, opening, orderings);
    OpeningWritten(db, id, txId, player, opening);
    NoTrace(db, id);
    OpeningWallet(db.txs, db.ledger, ch, id, None);
    forall w | w in db'.wallets
      ensures WalletOk(db'.txs, db'.ledger, w, db'.wallets[w])
    {
      if w != id {
        OpeningWallet(db.txs, db.ledger, ch, w, Some(db.wallets[w]));
      }
    }
  }

  lemma OpeningCore(db: Db, id: Id, txId: Id, player: string, opening: Money, orderings: seq<nat>)
    requires CoreInv(db) && OpeningOk(db, id, txId, player, opening) && |orderings| == 2
    ensures CoreInv(CommitOpening(db, id, txId, player, opening, orderings))
  {
    OpeningTables(db, id, txId, player, opening, orderings);
    OpeningWallets(db, id, txId, player, opening, orderings);
  }

  lemma OpeningEvents(db: Db, id: Id, txId: Id, player: string, opening: Money, orderings: seq<nat>)
    requires CoreInv(db) && OpeningOk(db, id, txId, player, opening) && |orderings| == 2
    requires WalletEventsOk(db.wallets, db.txs, db.ledger, db.outbox)
    ensures var db' := CommitOpening(db, id, txId, player, opening, orderings);
            WalletEventsOk(db'.wallets, db'.txs, db'.ledger, db'.outbox)
  {
    var ch := OpeningChange(id, txId, player, opening);
    var db' := CommitOpening(db, id, txId, player, opening, orderings);
    OpeningShape(db, id, txId, player, opening, orderings);
    OpeningWritten(db, id, txId, player, opening);
    NoTrace(db, id);
    OpeningWallet(db.txs, db.ledger, ch, id, None);
    BalanceEventReports(db.txs, ch, orderings[1]);
    ReportsAllAppend([], [], 0, BalanceEvent(ch, orderings[1]), EntryOf(ch));
    forall w: Id
      ensures if w in db'.wallets
              then ReportsAll(EventsFor(db'.outbox, WalletAggregate(w)), EntriesOf(db'.ledger, w), Base(db'.txs, w))
              else EventsFor(db'.outbox, WalletAggregate(w)) == []
    {
      EventsForCommit(db.outbox, ch, orderings, WalletAggregate(w));
      if w == id {
        assert EventsFor(db.outbox, WalletAggregate(id)) == [];
      } else {
        AppendEntry(db.ledger, EntryOf(ch), w);
        BaseStable(db.txs, None, ch.row, w);
      }
    }
  }

  lemma OpeningRest(db: Db, id: Id, txId: Id, player: string, opening: Money, orderings: seq<nat>)
    requires UniqueKeys(db.txs) && TxEventsOk(db.txs, db.outbox) && InboxInv(db.inbox, db.txs)
    requires OpeningOk(db, id, txId, player, opening) && |orderings| == 2
    ensures var db' := CommitOpening(db, id, txId, player, opening, orderings);
            TxEventsOk(db'.txs, db'.outbox) && InboxInv(db'.inbox, db'.txs) && Extends(db.txs, db'.txs)
  {
    var ch := OpeningChange(id, txId, player, opening);
    OpeningSound(db, id, txId, player, opening);
    SettleTxEvents(WithUnopened(db, id, player, opening), None, ch, orderings);
    PutKeeps(db.txs, None, ch.row);
    InboxExtends(db.inbox, db.txs, Put(db.txs, None, ch.row));
  }

  lemma OpeningKeeps(db: Db, id: Id, txId: Id, player: string, opening: Money, orderings: seq<nat>)
    requires Inv(db) && OpeningOk(db, id, txId, player, opening)
    requires OrderingsOk(db.outbox, db.nextOrdering, OpeningChange(id, txId, player, opening), orderings)
    ensures Inv(CommitOpening(db, id, txId, player, opening, orderings))
    ensures Extends(db.txs, CommitOpening(db, id, txId, player, opening, orderings).txs)
  {
    OpeningShape(db, id, txId, player, opening, orderings);
    OpeningCore(db, id, txId, player, opening, orderings);
    OpeningRest(db, id, txId, player, opening, orderings);
    OpeningEvents(db, id, txId, player, opening, orderings);
    SettleOrdering(db.outbox, db.nextOrdering, OpeningChange(id, txId, player, opening), orderings);
    MoreOwners(db.wallets, id, Wallet(player, opening.currency, opening.minor, 1));
  }
}
