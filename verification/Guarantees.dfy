/** The money, the ledger and the events, in every state of every run of the statement-level machine. */
module Guarantees {
  import opened Prelude
  import opened Monetary
  import opened Tables
  import opened Domain
  import opened Engine
  import opened TxFacts
  import opened Conservation
  import opened Invariants
  import opened Statements
  import opened RunTheorems
  import opened WalletTheorems
  import Reconstruction

  /** Entries chain from zero to the stored balance, all balances fit, and the version counts the entries. */
  lemma WalletInEveryState(states: seq<State>, actions: seq<Action>, i: nat, w: Id)
    requires Runs(states, actions) && i < |states| && w in states[i].db.wallets
    ensures var db := states[i].db; var es := EntriesOf(db.ledger, w); var row := db.wallets[w];
            && Reconstruction.Chain(es) && Reconstruction.End(es) == row.balance && 0 <= row.balance <= MAX_INT64
            && (forall j :: 0 <= j < |es| ==> 0 <= es[j].before <= MAX_INT64 && 0 <= es[j].after <= MAX_INT64)
            && row.version == |es| + if HasOpening(db.txs, w) then 0 else 1
  {
    EveryStateSound(states, actions, i);
    WalletFollowsLedger(states[i].db, w);
  }

  /** The balance is the opening amount, plus the wins not rolled back, minus the bets still standing. */
  lemma ConservedInEveryState(states: seq<State>, actions: seq<Action>, i: nat, w: Id)
    requires Runs(states, actions) && i < |states| && w in states[i].db.wallets
    ensures states[i].db.wallets[w].balance == Total(states[i].db.txs, w)
  {
    EveryStateSound(states, actions, i);
    BalanceIsConserved(states[i].db, w);
  }

  /** Entry e at position p is the only entry of row k. */
  ghost predicate OnlyEntry(db: Db, k: nat, p: nat) {
    && p < |db.ledger| && Posts(db.txs, k, db.ledger[p])
    && forall q :: 0 <= q < |db.ledger| && db.ledger[q].tx == db.txs[k].id ==> q == p
  }

  lemma LedgerFacts(db: Db)
    requires Inv(db)
    ensures AllPosted(db.txs, db.ledger) && AllExplained(db.txs, db.ledger) && OneEach(db.ledger) && UniqueKeys(db.txs)
  {
  }

  lemma SoundEntry(db: Db, k: nat) returns (p: nat)
    requires AllPosted(db.txs, db.ledger) && OneEach(db.ledger) && k < |db.txs| && db.txs[k].state.Processed? && !db.txs[k].kind.Loss?
    ensures OnlyEntry(db, k, p)
  {
    assert Posted(db.txs, k, db.ledger);
    p :| 0 <= p < |db.ledger| && Posts(db.txs, k, db.ledger[p]);
  }

  /** Every processed movement has exactly one entry, with its amount and direction. */
  lemma OneEntryPerMovement(states: seq<State>, actions: seq<Action>, i: nat, k: nat) returns (p: nat)
    requires Runs(states, actions) && i < |states| && k < |states[i].db.txs|
    requires states[i].db.txs[k].state.Processed? && !states[i].db.txs[k].kind.Loss?
    ensures OnlyEntry(states[i].db, k, p)
  {
    EveryStateSound(states, actions, i);
    LedgerFacts(states[i].db);
    p := SoundEntry(states[i].db, k);
  }

  lemma SoundRow(db: Db, p: nat) returns (k: nat)
    requires AllExplained(db.txs, db.ledger) && UniqueKeys(db.txs) && p < |db.ledger|
    ensures Posts(db.txs, k, db.ledger[p]) && forall l :: 0 <= l < |db.txs| && db.txs[l].id == db.ledger[p].tx ==> l == k
  {
    assert Explained(db.txs, db.ledger[p]);
    k :| Posts(db.txs, k, db.ledger[p]);
  }

  /** Every entry is the movement of exactly one processed row; rejected, waiting and LOSS rows have none. */
  lemma OneMovementPerEntry(states: seq<State>, actions: seq<Action>, i: nat, p: nat) returns (k: nat)
    requires Runs(states, actions) && i < |states| && p < |states[i].db.ledger|
    ensures var db := states[i].db;
            Posts(db.txs, k, db.ledger[p]) && forall l :: 0 <= l < |db.txs| && db.txs[l].id == db.ledger[p].tx ==> l == k
  {
    EveryStateSound(states, actions, i);
    LedgerFacts(states[i].db);
    k := SoundRow(states[i].db, p);
  }

  /** One terminal event per terminal row, after one waiting event if it waited; one waiting event while it waits. */
  lemma EventsOfRow(states: seq<State>, actions: seq<Action>, i: nat, k: nat)
    requires Runs(states, actions) && i < |states| && k < |states[i].db.txs|
    ensures HistoryOk(states[i].db.txs[k], EventsFor(states[i].db.outbox, TxAggregate(states[i].db.txs[k].id)))
  {
    EveryStateSound(states, actions, i);
    SoundHistory(states[i].db, k);
  }

  lemma SoundHistory(db: Db, k: nat)
    requires Inv(db) && k < |db.txs|
    ensures HistoryOk(db.txs[k], EventsFor(db.outbox, TxAggregate(db.txs[k].id)))
  {
  }

  /** Nothing else is ever announced: each event belongs to a committed row, or to an entry of an existing wallet. */
  lemma NoStrayEvents(states: seq<State>, actions: seq<Action>, i: nat, e: Event)
    requires Runs(states, actions) && i < |states| && e in states[i].db.outbox
    ensures match e.aggregate
            case TxAggregate(id) => exists k :: 0 <= k < |states[i].db.txs| && states[i].db.txs[k].id == id
            case WalletAggregate(w) => w in states[i].db.wallets
  {
    EveryStateSound(states, actions, i);
    EventOwner(states[i].db, e);
  }

  lemma EventOwner(db: Db, e: Event)
    requires Inv(db) && e in db.outbox
    ensures match e.aggregate
            case TxAggregate(id) => exists k :: 0 <= k < |db.txs| && db.txs[k].id == id
            case WalletAggregate(w) => w in db.wallets
  {
    hide CoreInv, InboxInv, OrderingInv, HistoryOk, ReportsAll;
    EventsForMember(db.outbox, e.aggregate, e);
    assert EventsFor(db.outbox, e.aggregate) != [];
  }

  /** A wallet's balance events: consecutive versions, each starting where the last one ended, up to the stored balance. */
  lemma BalanceEventsInEveryState(states: seq<State>, actions: seq<Action>, i: nat, w: Id)
    requires Runs(states, actions) && i < |states| && w in states[i].db.wallets
    ensures var db := states[i].db; var es := EventsFor(db.outbox, WalletAggregate(w));
            && |es| == |EntriesOf(db.ledger, w)| && BalanceChain(es)
            && (es != [] ==> es[|es| - 1].body.after.minor == db.wallets[w].balance && es[|es| - 1].body.version == db.wallets[w].version)
  {
    EveryStateSound(states, actions, i);
    BalanceEventsChain(states[i].db, w);
  }

  /** Whoever reads a wallet and its ledger in one state reconciles them, in any row order, unless two movements started from one balance. */
  lemma ReconcilesInEveryState(states: seq<State>, actions: seq<Action>, i: nat, w: Id, rows: seq<Entry>)
    requires Runs(states, actions) && i < |states| && w in states[i].db.wallets && multiset(rows) == multiset(EntriesOf(states[i].db.ledger, w))
    ensures var db := states[i].db; var es := EntriesOf(db.ledger, w);
            && (Reconstruction.Reconstructible(rows, db.wallets[w].currency) <==> Reconstruction.DistinctBefores(es))
            && (Reconstruction.DistinctBefores(es) ==> Reconstruction.Ordering(es, rows)) && Reconstruction.End(es) == db.wallets[w].balance
  {
    EveryStateSound(states, actions, i);
    ReconcileHolds(states[i].db, w, rows);
  }
}
