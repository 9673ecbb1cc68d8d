/** What every committed database state satisfies, and what a commit must bring along. */
module Invariants {
  import opened Prelude
  import opened Monetary
  import opened Tables
  import opened Domain
  import opened Engine
  import opened TxFacts
  import opened Conservation

  // ---------------------------------------------------------------------
  // Transaction rows
  // ---------------------------------------------------------------------

  /** One row on its own: its wallet and currency exist, its amount suits its kind, its snapshot replays. */
  ghost predicate RowOk(wallets: map<Id, Wallet>, t: Tx) {
    && t.wallet in wallets && wallets[t.wallet].currency == t.currency && ValidCurrency(t.currency)
    && t.provider != "" && t.external != ""
    && ValidAmount(t.kind, Money(t.amount, t.currency)) && t.amount <= MAX_INT64
    && (t.state.Processed? || t.state.Rejected? || t.state.PendingReference?)
    && ReplayResult(t).Ok? && ReplayResult(t).value.code == t.code
    && (t.kind.Opening? || t.hash == Digest(PayloadOf(CommandOf(t))))
    && (t.state.PendingReference? ==> IsReversal(t.kind) && t.ref != "")
    && (t.state.Processed? && IsReversal(t.kind) ==> t.ref != "")
  }

  ghost predicate TxInv(wallets: map<Id, Wallet>, txs: seq<Tx>) {
    && UniqueKeys(txs) && RefsOk(txs)
    && forall k :: 0 <= k < |txs| ==> RowOk(wallets, txs[k])
  }

  // ---------------------------------------------------------------------
  // The ledger
  // ---------------------------------------------------------------------

  /** Where wallet w's entries end. */
  function BalanceAt(ledger: seq<Entry>, w: Id): int {
    if ledger == [] then 0
    else if ledger[|ledger| - 1].wallet == w then ledger[|ledger| - 1].after
    else BalanceAt(ledger[..|ledger| - 1], w)
  }

  /** The entries of one wallet, in insertion order. */
  function EntriesOf(ledger: seq<Entry>, w: Id): seq<Entry> {
    if ledger == [] then []
    else
      var rest := EntriesOf(ledger[..|ledger| - 1], w);
      if ledger[|ledger| - 1].wallet == w then rest + [ledger[|ledger| - 1]] else rest
  }

  /** Each entry balances and starts where its wallet's previous entry ended. */
  ghost predicate Chained(ledger: seq<Entry>) {
    forall i :: 0 <= i < |ledger| ==>
      && ledger[i].before == BalanceAt(ledger[..i], ledger[i].wallet)
      && Balances(ledger[i].direction, ledger[i].value, ledger[i].before, ledger[i].after)
      && ledger[i].after <= MAX_INT64
  }

  /** Entry e is the movement of row k. */
  ghost predicate Posts(txs: seq<Tx>, k: nat, e: Entry) {
    && k < |txs| && txs[k].state.Processed? && !txs[k].kind.Loss?
    && e.tx == txs[k].id && e.wallet == txs[k].wallet && e.value == txs[k].amount && e.currency == txs[k].currency
    && e.direction == DirectionOf(txs, txs[k])
  }

  ghost predicate Explained(txs: seq<Tx>, e: Entry) {
    exists k: nat :: Posts(txs, k, e)
  }

  ghost predicate Posted(txs: seq<Tx>, k: nat, ledger: seq<Entry>) {
    exists i :: 0 <= i < |ledger| && Posts(txs, k, ledger[i])
  }

  ghost predicate AllExplained(txs: seq<Tx>, ledger: seq<Entry>) {
    forall i {:trigger Explained(txs, ledger[i])} :: 0 <= i < |ledger| ==> Explained(txs, ledger[i])
  }

  ghost predicate AllPosted(txs: seq<Tx>, ledger: seq<Entry>) {
    forall k {:trigger Posted(txs, k, ledger)} ::
      0 <= k < |txs| && txs[k].state.Processed? && !txs[k].kind.Loss? ==> Posted(txs, k, ledger)
  }

  /** Entries and processed movements correspond one to one. */
  ghost predicate OneToOne(txs: seq<Tx>, ledger: seq<Entry>) {
    && AllExplained(txs, ledger) && AllPosted(txs, ledger)
    && OneEach(ledger)
  }

  ghost predicate OneEach(ledger: seq<Entry>) {
    forall i, j :: 0 <= i < j < |ledger| ==> ledger[i].tx != ledger[j].tx
  }

  ghost predicate LedgerInv(txs: seq<Tx>, ledger: seq<Entry>) {
    Chained(ledger) && OneToOne(txs, ledger)
  }

  // ---------------------------------------------------------------------
  // Wallets
  // ---------------------------------------------------------------------

  ghost predicate HasOpening(txs: seq<Tx>, w: Id) {
    exists k :: 0 <= k < |txs| && txs[k].kind.Opening? && txs[k].wallet == w
  }

  /** A wallet opened at zero starts at version one without an entry. */
  ghost function Base(txs: seq<Tx>, w: Id): int {
    if HasOpening(txs, w) then 0 else 1
  }

  /** The stored balance is the ledger's, and it is what the processed rows say it must be. */
  ghost predicate WalletOk(txs: seq<Tx>, ledger: seq<Entry>, w: Id, row: Wallet) {
    && ValidCurrency(row.currency) && row.player != "" && 0 <= row.balance <= MAX_INT64
    && row.balance == BalanceAt(ledger, w)
    && row.balance == Total(txs, w)
    && row.version == |EntriesOf(ledger, w)| + Base(txs, w)
  }

  ghost predicate WalletInv(wallets: map<Id, Wallet>, txs: seq<Tx>, ledger: seq<Entry>) {
    forall w :: w in wallets ==> WalletOk(txs, ledger, w, wallets[w])
  }

  // ---------------------------------------------------------------------
  // Events
  // ---------------------------------------------------------------------

  function EventsFor(outbox: seq<Event>, a: Aggregate): seq<Event> {
    if outbox == [] then []
    else
      var rest := EventsFor(outbox[..|outbox| - 1], a);
      if outbox[|outbox| - 1].aggregate == a then rest + [outbox[|outbox| - 1]] else rest
  }

  lemma {:induction false} EventsForMember(outbox: seq<Event>, a: Aggregate, e: Event)
    ensures e in EventsFor(outbox, a) <==> e in outbox && e.aggregate == a
  {
    if outbox != [] {
      var n := |outbox| - 1;
      EventsForMember(outbox[..n], a, e);
      assert outbox == outbox[..n] + [outbox[n]];
    }
  }

  /** The event that announces a row's terminal result. */
  predicate Announces(e: Event, t: Tx) {
    && Terminal(t.state) && ReplayResult(t).Ok? && e.kind == EventKindOf(t.state)
    && e.correlation == t.key && e.causation == t.id && e.body == TxBody(ReplayResult(t).value, t.wallet, t.kind)
  }

  /** The event that announces that a row waits for its reference. */
  predicate AnnouncesWait(e: Event, t: Tx) {
    && e.kind.TransactionPendingReference? && e.correlation == t.key && e.causation == t.id
    && e.body.TxBody? && e.body.wallet == t.wallet && e.body.kind == t.kind && IsReversal(t.kind)
    && e.body.result.tx == t.id && e.body.result.state.PendingReference?
    && e.body.result.amount == Money(t.amount, t.currency) && e.body.result.code.NoCode?
  }

  /** One terminal event per terminal row, preceded by one waiting event if the row waited; while it waits, that event carries its result. */
  predicate HistoryOk(t: Tx, events: seq<Event>) {
    if t.state.PendingReference? then |events| == 1 && AnnouncesWait(events[0], t) && ReplayResult(t) == Ok(events[0].body.result)
    else
      || (|events| == 1 && Announces(events[0], t))
      || (|events| == 2 && AnnouncesWait(events[0], t) && Announces(events[1], t))
  }

  /** A balance event reports one ledger entry under the version it produced. */
  predicate Reports(ev: Event, e: Entry, version: int) {
    && ev.kind.WalletBalanceChanged? && ev.causation == e.tx && ev.version == version
    && ev.body.BalanceBody? && ev.body.tx == e.tx && ev.body.wallet == e.wallet && ev.body.direction == e.direction
    && ev.body.value == Money(e.value, e.currency) && ev.body.before == Money(e.before, e.currency)
    && ev.body.after == Money(e.after, e.currency) && ev.body.version == version && ev.body.state.Processed?
  }

  ghost predicate ReportsAll(events: seq<Event>, entries: seq<Entry>, base: int) {
    && |events| == |entries|
    && forall i :: 0 <= i < |events| ==> Reports(events[i], entries[i], i + 1 + base)
  }

  /** The outbox is determined by the transaction rows and the ledger. */
  ghost predicate TxEventsOk(txs: seq<Tx>, outbox: seq<Event>) {
    && (forall k :: 0 <= k < |txs| ==> HistoryOk(txs[k], EventsFor(outbox, TxAggregate(txs[k].id))))
    && (forall id: Id :: (forall k :: 0 <= k < |txs| ==> txs[k].id != id) ==> EventsFor(outbox, TxAggregate(id)) == [])
  }

  ghost predicate WalletEventsOk(wallets: map<Id, Wallet>, txs: seq<Tx>, ledger: seq<Entry>, outbox: seq<Event>) {
    forall w: Id :: if w in wallets
      then ReportsAll(EventsFor(outbox, WalletAggregate(w)), EntriesOf(ledger, w), Base(txs, w))
      else EventsFor(outbox, WalletAggregate(w)) == []
  }

  /** Each aggregate's events became visible in the order of their sequence numbers. */
  ghost predicate OrderingInv(outbox: seq<Event>, next: nat) {
    && (forall i :: 0 <= i < |outbox| ==> outbox[i].ordering < next)
    && (forall i, j :: 0 <= i < j < |outbox| && outbox[i].aggregate == outbox[j].aggregate ==> outbox[i].ordering < outbox[j].ordering)
  }

  // ---------------------------------------------------------------------
  // The inbox
  // ---------------------------------------------------------------------

  ghost predicate HasHash(txs: seq<Tx>, hash: string) {
    exists k :: 0 <= k < |txs| && !txs[k].kind.Opening? && txs[k].hash == hash
  }

  /** Every committed inbox row is completed and its command has a row. */
  ghost predicate InboxInv(inbox: map<InboxKey, InboxRow>, txs: seq<Tx>) {
    forall m :: m in inbox ==> inbox[m].completed && HasHash(txs, inbox[m].hash)
  }

  // ---------------------------------------------------------------------
  // The whole state
  // ---------------------------------------------------------------------

  /** UNIQUE (player_id, currency). */
  ghost predicate OwnersInv(wallets: map<Id, Wallet>) {
    forall v, w :: v in wallets && w in wallets && v != w ==> !(wallets[v].player == wallets[w].player && wallets[v].currency == wallets[w].currency)
  }

  ghost predicate CoreInv(db: Db) {
    var rows := TxInv(db.wallets, db.txs);
    var ledger := LedgerInv(db.txs, db.ledger);
    var owners := forall i :: 0 <= i < |db.ledger| ==> db.ledger[i].wallet in db.wallets;
    var wallets := WalletInv(db.wallets, db.txs, db.ledger);
    rows && ledger && owners && wallets
  }

  ghost predicate Inv(db: Db) {
    var core := CoreInv(db) && OwnersInv(db.wallets);
    var events := TxEventsOk(db.txs, db.outbox) && WalletEventsOk(db.wallets, db.txs, db.ledger, db.outbox);
    var ordering := OrderingInv(db.outbox, db.nextOrdering);
    var inbox := InboxInv(db.inbox, db.txs);
    core && events && ordering && inbox
  }

  // ---------------------------------------------------------------------
  // What a commit must satisfy
  // ---------------------------------------------------------------------

  /** The written row and its movement fit together, given the table they are written to. */
  ghost predicate Sound(txs: seq<Tx>, ch: Change) {
    match ch
    case Postpone(_) => false
    case Settle(row, result, w, move) =>
      && row.currency == w.currency && ValidCurrency(row.currency) && row.provider != "" && row.external != ""
      && ValidAmount(row.kind, Money(row.amount, row.currency)) && row.amount <= MAX_INT64
      && 0 <= w.balance <= MAX_INT64
      && row.result == Some(MarshalResult(result)) && result.tx == row.id && result.state == row.state
      && result.amount == Money(row.amount, row.currency) && result.code == row.code
      && (row.state.Processed? || row.state.Rejected? || row.state.PendingReference?)
      && (row.kind.Opening? || row.hash == Digest(PayloadOf(CommandOf(row))))
      && (row.state.PendingReference? ==> IsReversal(row.kind) && row.ref != "" && row.code.NoCode?)
      && (row.state.Processed? && IsReversal(row.kind) ==> row.ref != "" && RefersTo(txs, row))
      && (move.Some? <==> row.state.Processed? && !row.kind.Loss?)
      && (if move.Some?
          then move.value == DirectionOf(txs, row) && Balances(move.value, row.amount, w.balance, result.balance)
               && result.balance <= MAX_INT64
          else result.balance == w.balance)
  }

  /** The conditions under which a change may be committed at `slot`. */
  ghost predicate ChangeOk(db: Db, slot: Option<nat>, ch: Change) {
    match ch
    case Settle(row, _, w, _) =>
      && row.wallet in db.wallets && db.wallets[row.wallet] == w
      && Fits(db.txs, slot, row) && Sound(db.txs, ch)
      && (slot.Some? ==> IsReversal(row.kind) && Terminal(row.state) && db.txs[slot.value].state.PendingReference?)
    case Postpone(row) =>
      && slot.Some? && slot.value < |db.txs| && db.txs[slot.value].state.PendingReference?
      && row == db.txs[slot.value].(attempts := row.attempts, nextAttempt := row.nextAttempt)
  }

  /** The sequence numbers drawn for a change come after everything its aggregates already show. */
  ghost predicate OrderingsOk(outbox: seq<Event>, next: nat, ch: Change, orderings: seq<nat>) {
    && |orderings| == EventCount(ch)
    && (forall i :: 0 <= i < |orderings| ==> orderings[i] < next)
    && (ch.Settle? ==> forall e :: e in outbox ==>
          && (e.aggregate == TxAggregate(ch.row.id) ==> e.ordering < orderings[0])
          && (ch.move.Some? && e.aggregate == WalletAggregate(ch.row.wallet) ==> e.ordering < orderings[1]))
  }
}
