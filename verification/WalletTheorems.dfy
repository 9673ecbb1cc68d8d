/** What every reachable database state says about a wallet, its ledger and its events. */
module WalletTheorems {
  import opened Prelude
  import opened Monetary
  import opened Tables
  import opened Domain
  import opened Engine
  import opened TxFacts
  import opened Conservation
  import opened Invariants
  import opened Commits
  import Reconstruction

  // ---------------------------------------------------------------------
  // One wallet's entries
  // ---------------------------------------------------------------------

  /** A prefix of the ledger is chained as well. */
  lemma ChainedPrefix(ledger: seq<Entry>, n: nat)
    requires Chained(ledger) && n <= |ledger|
    ensures Chained(ledger[..n])
  {
    forall i | 0 <= i < n
      ensures ledger[..n][i].before == BalanceAt(ledger[..n][..i], ledger[..n][i].wallet)
    {
      assert ledger[..n][..i] == ledger[..i];
    }
  }

  lemma ChainAppend(es: seq<Entry>, e: Entry)
    requires Reconstruction.Chain(es) && e.before == Reconstruction.End(es)
    ensures Reconstruction.Chain(es + [e])
  {
    forall i | 0 <= i < |es + [e]|
      ensures (es + [e])[i].before == Reconstruction.End((es + [e])[..i])
    {
      assert (es + [e])[..i] == es[..i];
      assert i == |es| ==> es[..i] == es;
    }
  }

  predicate ValidEntry(e: Entry, w: Id) {
    e.wallet == w && Balances(e.direction, e.value, e.before, e.after) && e.after <= MAX_INT64
  }

  /** Cut down to one wallet, the chained ledger is one continuous chain from zero. */
  lemma {:induction false} OwnChain(ledger: seq<Entry>, w: Id)
    requires Chained(ledger)
    ensures var es := EntriesOf(ledger, w);
            && Reconstruction.Chain(es) && Reconstruction.End(es) == BalanceAt(ledger, w)
            && (forall i :: 0 <= i < |es| ==> ValidEntry(es[i], w) && es[i] in ledger)
  {
    if ledger != [] {
      var n := |ledger| - 1;
      ChainedPrefix(ledger, n);
      OwnChain(ledger[..n], w);
      if ledger[n].wallet == w {
        ChainAppend(EntriesOf(ledger[..n], w), ledger[n]);
      }
    }
  }

  // ---------------------------------------------------------------------
  // The stored wallet
  // ---------------------------------------------------------------------

  lemma WalletFacts(db: Db, w: Id)
    requires Inv(db) && w in db.wallets
    ensures WalletOk(db.txs, db.ledger, w, db.wallets[w]) && Chained(db.ledger)
  {
  }

  /** The entries chain from zero to the stored balance, every balance on the way fits, and the version counts them. */
  lemma WalletFollowsLedger(db: Db, w: Id)
    requires Inv(db) && w in db.wallets
    ensures var es := EntriesOf(db.ledger, w); var row := db.wallets[w];
            && Reconstruction.Chain(es) && Reconstruction.End(es) == row.balance && 0 <= row.balance <= MAX_INT64
            && (forall i :: 0 <= i < |es| ==> 0 <= es[i].before <= MAX_INT64 && 0 <= es[i].after <= MAX_INT64)
            && row.version == |es| + if HasOpening(db.txs, w) then 0 else 1
  {
    WalletFacts(db, w);
    OwnChain(db.ledger, w);
    var es := EntriesOf(db.ledger, w);
    forall i | 0 <= i < |es|
      ensures 0 <= es[i].before <= MAX_INT64 && 0 <= es[i].after <= MAX_INT64
    {
      assert ValidEntry(es[i], w);
      assert es[i].before == Reconstruction.End(es[..i]);
      if i > 0 {
        assert ValidEntry(es[i - 1], w);
      }
    }
  }

  /** Opening amount, plus wins not rolled back, minus bets still standing: nothing else moves a balance. */
  lemma BalanceIsConserved(db: Db, w: Id)
    requires Inv(db) && w in db.wallets
    ensures db.wallets[w].balance == Total(db.txs, w)
  {
  }

  // ---------------------------------------------------------------------
  // Balance events
  // ---------------------------------------------------------------------

  /** Event b continues a: the next version, starting from the balance a ended with. */
  predicate Continues(a: Event, b: Event) {
    a.body.BalanceBody? && b.body.BalanceBody? && b.body.version == a.body.version + 1 && b.body.before == a.body.after
  }

  /** Balance events with consecutive versions, each starting from the balance the previous one ended with. */
  ghost predicate BalanceChain(es: seq<Event>) {
    && (forall j :: 0 <= j < |es| ==> es[j].body.BalanceBody?)
    && (forall j :: 0 < j < |es| ==> Continues(es[j - 1], es[j]))
  }

  lemma ReportsChain(es: seq<Event>, entries: seq<Entry>, base: int, currency: string)
    requires ReportsAll(es, entries, base) && Reconstruction.Chain(entries)
    requires forall j :: 0 <= j < |entries| ==> entries[j].currency == currency
    ensures BalanceChain(es)
    ensures es != [] ==> es[|es| - 1].body.BalanceBody? && es[|es| - 1].body.after.minor == Reconstruction.End(entries)
                         && es[|es| - 1].body.version == |es| + base
  {
    forall j | 0 <= j < |es|
      ensures es[j].body.BalanceBody? && (j > 0 ==> Continues(es[j - 1], es[j]))
    {
      assert Reports(es[j], entries[j], j + 1 + base);
      if j > 0 {
        assert Reports(es[j - 1], entries[j - 1], j + base);
        assert entries[j].before == Reconstruction.End(entries[..j]);
      }
    }
    if es != [] {
      assert Reports(es[|es| - 1], entries[|es| - 1], |es| + base);
    }
  }

  /** A wallet's balance events carry consecutive versions and chain before to after, ending at the stored balance and version. */
  lemma BalanceEventsChain(db: Db, w: Id)
    requires Inv(db) && w in db.wallets
    ensures var es := EventsFor(db.outbox, WalletAggregate(w));
            && |es| == |EntriesOf(db.ledger, w)| && BalanceChain(es)
            && (es != [] ==> es[|es| - 1].body.after.minor == db.wallets[w].balance && es[|es| - 1].body.version == db.wallets[w].version)
  {
    WalletFacts(db, w);
    OwnChain(db.ledger, w);
    OwnCurrency(db, w);
    ReportsChain(EventsFor(db.outbox, WalletAggregate(w)), EntriesOf(db.ledger, w), Base(db.txs, w), db.wallets[w].currency);
  }

  /** Every entry is in its wallet's currency. */
  lemma OwnCurrency(db: Db, w: Id)
    requires Inv(db) && w in db.wallets
    ensures forall i :: 0 <= i < |EntriesOf(db.ledger, w)| ==> EntriesOf(db.ledger, w)[i].currency == db.wallets[w].currency
  {
    WalletFacts(db, w);
    OwnChain(db.ledger, w);
    var es := EntriesOf(db.ledger, w);
    forall i | 0 <= i < |es|
      ensures es[i].currency == db.wallets[w].currency
    {
      assert ValidEntry(es[i], w);
      EntryCurrency(db, es[i]);
    }
  }

  lemma EntryCurrency(db: Db, e: Entry)
    requires TxInv(db.wallets, db.txs) && AllExplained(db.txs, db.ledger) && e in db.ledger
    ensures e.wallet in db.wallets && e.currency == db.wallets[e.wallet].currency
  {
    var j :| 0 <= j < |db.ledger| && db.ledger[j] == e;
    assert Explained(db.txs, db.ledger[j]);
    var k: nat :| Posts(db.txs, k, e);
    assert RowOk(db.wallets, db.txs[k]);
  }

  // ---------------------------------------------------------------------
  // Reconciliation
  // ---------------------------------------------------------------------

  /** The ledger rows of a wallet, in whatever order, rebuild its balance exactly when no two movements started from the same balance. */
  lemma ReconcileHolds(db: Db, w: Id, rows: seq<Entry>)
    requires Inv(db) && w in db.wallets && multiset(rows) == multiset(EntriesOf(db.ledger, w))
    ensures var es := EntriesOf(db.ledger, w);
            && (Reconstruction.Reconstructible(rows, db.wallets[w].currency) <==> Reconstruction.DistinctBefores(es))
            && (Reconstruction.DistinctBefores(es) ==> Reconstruction.Ordering(es, rows)) && Reconstruction.End(es) == db.wallets[w].balance
  {
    WalletFacts(db, w);
    OwnChain(db.ledger, w);
    OwnCurrency(db, w);
    var es := EntriesOf(db.ledger, w);
    forall i | 0 <= i < |es|
      ensures Reconstruction.LocallyValid(es[i], db.wallets[w].currency)
    {
      assert ValidEntry(es[i], w);
    }
    Reconstruction.ChainReconstructs(es, rows, db.wallets[w].currency);
  }
}
